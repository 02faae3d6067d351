/**
 Any number of publishers over one outbox table, with crashes, lost answers and lost acknowledgements
 anywhere (internal/workers/outbox.go over outboxRepo and the broker of internal/adapters/sqs/publisher.go).
 Time is one clock that never goes back; a publisher reads it before it claims.
 */
module OutboxRuns {
  import opened Basics
  import opened Outbox

  type Pid = nat

  /** Where a publisher is with one event of its batch. */
  datatype Stage =
    | Waiting   // claimed, not sent
    | Tried     // sent in a batch call that failed as a whole
    | Accepted  // confirmed by the broker, to be acknowledged
    | Refused   // to be rescheduled
    | Settled

  datatype Held = Held(attempt: nat, stage: Stage)

  datatype Sending = Sending(id: Uuid, attempt: nat)

  datatype State = State(
    rows: Table,
    batches: map<Pid, map<Uuid, Held>>,
    sends: seq<Sending>,
    taken: seq<Uuid>,
    clock: Time)

  const START: State := State(map[], map[], [], [], 0)

  datatype BatchAnswer = CallFailed | Answered(confirmed: set<Uuid>)

  datatype Action =
    | Pass(to: Time)
    | Commit(id: Uuid)
    | Claim(pid: Pid, publisher: string, ids: set<Uuid>, at: Time, lease: Time)
    | SendBatch(pid: Pid, chunk: seq<Uuid>, landed: seq<Uuid>, answer: BatchAnswer)
    | SendOne(pid: Pid, id: Uuid, lands: bool, confirmed: bool)
    | Acknowledge(pid: Pid, ids: set<Uuid>, at: Time, works: bool)
    | Reschedule(pid: Pid, id: Uuid, next: Time, works: bool)
    | Stop(pid: Pid)

  const BATCH_LIMIT: nat := 10

  predicate AllIn(batch: map<Uuid, Held>, ids: set<Uuid>, stage: Stage) {
    forall id :: id in ids ==> id in batch && batch[id].stage == stage
  }

  /** A confirmation means the broker has taken the event; a failure may mean either. */
  ghost predicate Enabled(s: State, a: Action) {
    match a
    case Pass(to) => s.clock <= to
    case Commit(id) => id !in s.rows
    case Claim(pid, _, ids, at, lease) =>
      && pid !in s.batches && at <= s.clock && lease > 0
      && forall id :: id in ids ==> id in s.rows && Claimable(s.rows[id], at)
    case SendBatch(pid, chunk, landed, answer) =>
      && pid in s.batches && 2 <= |chunk| <= BATCH_LIMIT && Distinct(chunk) && AllIn(s.batches[pid], Elements(chunk), Waiting)
      && Elements(landed) <= Elements(chunk)
      && (answer.Answered? ==> answer.confirmed <= Elements(landed))
    case SendOne(pid, id, lands, confirmed) =>
      && pid in s.batches && id in s.batches[pid] && (s.batches[pid][id].stage.Waiting? || s.batches[pid][id].stage.Tried?)
      && (confirmed ==> lands)
    case Acknowledge(pid, ids, _, _) => pid in s.batches && AllIn(s.batches[pid], ids, Accepted)
    case Reschedule(pid, id, _, _) => pid in s.batches && id in s.batches[pid] && s.batches[pid][id].stage.Refused?
    case Stop(pid) => pid in s.batches
  }

  function Moved(batch: map<Uuid, Held>, ids: set<Uuid>, stage: Stage): map<Uuid, Held> {
    map id | id in batch :: if id in ids then batch[id].(stage := stage) else batch[id]
  }

  function NewBatch(rows: Table, ids: set<Uuid>): map<Uuid, Held> {
    map id | id in ids && id in rows :: Held(rows[id].attempts + 1, Waiting)
  }

  function Sent(batch: map<Uuid, Held>, chunk: seq<Uuid>): seq<Sending>
    requires forall id :: id in Elements(chunk) ==> id in batch
  {
    seq(|chunk|, i requires 0 <= i < |chunk| => assert chunk[i] in Elements(chunk); Sending(chunk[i], batch[chunk[i]].attempt))
  }

  ghost function Perform(s: State, a: Action): State
    requires Enabled(s, a)
  {
    match a
    case Pass(to) => s.(clock := to)
    case Commit(id) => s.(rows := s.rows[id := Fresh(s.clock)])
    case Claim(pid, publisher, ids, at, lease) =>
      s.(rows := ClaimAll(s.rows, ids, publisher, at, lease), batches := s.batches[pid := NewBatch(s.rows, ids)])
    case SendBatch(pid, chunk, landed, answer) =>
      var b := s.batches[pid];
      var b' := if answer.CallFailed? then Moved(b, Elements(chunk), Tried)
                else Moved(Moved(b, Elements(chunk) - answer.confirmed, Refused), answer.confirmed, Accepted);
      s.(batches := s.batches[pid := b'], sends := s.sends + Sent(b, chunk), taken := s.taken + landed)
    case SendOne(pid, id, lands, confirmed) =>
      var b := s.batches[pid];
      s.(batches := s.batches[pid := Moved(b, {id}, if confirmed then Accepted else Refused)],
         sends := s.sends + [Sending(id, b[id].attempt)], taken := s.taken + (if lands then [id] else []))
    case Acknowledge(pid, ids, at, works) =>
      s.(rows := if works then AcknowledgeAll(s.rows, ids, at) else s.rows, batches := s.batches[pid := Moved(s.batches[pid], ids, Settled)])
    case Reschedule(pid, id, next, works) =>
      s.(rows := if works then Release(s.rows, id, next) else s.rows, batches := s.batches[pid := Moved(s.batches[pid], {id}, Settled)])
    case Stop(pid) => s.(batches := s.batches - {pid})
  }

  ghost predicate IsRun(states: seq<State>, actions: seq<Action>) {
    && |states| == |actions| + 1
    && states[0] == START
    && forall i :: 0 <= i < |actions| ==> Enabled(states[i], actions[i]) && states[i + 1] == Perform(states[i], actions[i])
  }

  // ---- counting sends ----

  function CountSends(sends: seq<Sending>, id: Uuid, attempt: nat): nat {
    if sends == [] then 0
    else CountSends(sends[..|sends| - 1], id, attempt) + (if sends[|sends| - 1] == Sending(id, attempt) then 1 else 0)
  }

  lemma {:induction false} CountAppends(a: seq<Sending>, b: seq<Sending>, id: Uuid, attempt: nat)
    ensures CountSends(a + b, id, attempt) == CountSends(a, id, attempt) + CountSends(b, id, attempt)
  {
    if b == [] {
      assert a + b == a;
    } else {
      assert (a + b)[..|a + b| - 1] == a + b[..|b| - 1];
      CountAppends(a, b[..|b| - 1], id, attempt);
    }
  }

  lemma {:induction false} CountAbsent(sends: seq<Sending>, id: Uuid, attempt: nat)
    requires Sending(id, attempt) !in sends
    ensures CountSends(sends, id, attempt) == 0
  {
    if sends != [] {
      CountAbsent(sends[..|sends| - 1], id, attempt);
    }
  }

  lemma {:induction false} CountDistinct(batch: map<Uuid, Held>, chunk: seq<Uuid>, id: Uuid, attempt: nat)
    requires Distinct(chunk) && forall x :: x in Elements(chunk) ==> x in batch
    ensures CountSends(Sent(batch, chunk), id, attempt)
         == if id in Elements(chunk) && batch[id].attempt == attempt then 1 else 0
  {
    if chunk != [] {
      var front, last := chunk[..|chunk| - 1], chunk[|chunk| - 1];
      assert chunk == front + [last];
      ElementsGrow(front, last);
      CountDistinct(batch, front, id, attempt);
      assert Sent(batch, chunk)[..|chunk| - 1] == Sent(batch, front);
    }
  }

  // ---- the invariant ----

  /** A claim is of a row, at most its latest one, and its sends so far fit its stage. */
  ghost predicate HeldOk(s: State, id: Uuid, h: Held) {
    && id in s.rows && 1 <= h.attempt <= s.rows[id].attempts
    && (h.stage.Waiting? ==> CountSends(s.sends, id, h.attempt) == 0)
    && (h.stage.Tried? ==> CountSends(s.sends, id, h.attempt) <= 1)
    && (h.stage.Accepted? ==> id in s.taken)
  }

  ghost predicate BatchesOk(s: State) {
    forall p, id :: p in s.batches && id in s.batches[p] ==> HeldOk(s, id, s.batches[p][id])
  }

  /** No two publishers hold the same claim. */
  ghost predicate ClaimsApart(batches: map<Pid, map<Uuid, Held>>) {
    forall p, q, id | p in batches && q in batches && p != q && id in batches[p] && id in batches[q] ::
      batches[p][id].attempt != batches[q][id].attempt
  }

  /** Sends are of claims that were made, at most two each. */
  ghost predicate SendsOk(s: State) {
    && (forall x :: x in s.sends ==> x.id in s.rows && 1 <= x.attempt <= s.rows[x.id].attempts)
    && (forall id, attempt: nat :: CountSends(s.sends, id, attempt) <= 2)
  }

  ghost predicate TakenOk(s: State) {
    && (forall id :: id in s.taken ==> id in s.rows)
    && (forall id :: id in s.rows && s.rows[id].publishedAt.Some? ==> id in s.taken)
  }

  ghost predicate OutboxInv(s: State) {
    BatchesOk(s) && ClaimsApart(s.batches) && SendsOk(s) && TakenOk(s)
  }

  /** Rows stay, and their claim counters only grow. */
  predicate RowsGo(rows: Table, rows': Table) {
    forall id :: id in rows ==> id in rows' && rows[id].attempts <= rows'[id].attempts
  }

  lemma ClaimKeeps(s: State, a: Action)
    requires OutboxInv(s) && Enabled(s, a) && a.Claim?
    ensures OutboxInv(Perform(s, a))
  {
    var s' := Perform(s, a);
    forall p, id | p in s'.batches && id in s'.batches[p] ensures HeldOk(s', id, s'.batches[p][id]) {
      if p == a.pid {
        var attempt := s.rows[id].attempts + 1;
        assert Sending(id, attempt) !in s.sends;
        CountAbsent(s.sends, id, attempt);
      } else {
        assert HeldOk(s, id, s.batches[p][id]);
      }
    }
    forall p, q, id | p in s'.batches && q in s'.batches && p != q && id in s'.batches[p] && id in s'.batches[q]
      ensures s'.batches[p][id].attempt != s'.batches[q][id].attempt
    {
      if p == a.pid {
        assert HeldOk(s, id, s.batches[q][id]);
      } else if q == a.pid {
        assert HeldOk(s, id, s.batches[p][id]);
      }
    }
  }

  /** One publisher's batch moves on; the rows stay or advance. */
  lemma MoveKeeps(s: State, s': State, pid: Pid)
    requires OutboxInv(s) && pid in s.batches && pid in s'.batches && RowsGo(s.rows, s'.rows)
    requires s'.batches == s.batches[pid := s'.batches[pid]]
    requires s'.batches[pid].Keys == s.batches[pid].Keys
    requires forall id :: id in s.batches[pid] ==> s'.batches[pid][id].attempt == s.batches[pid][id].attempt
    requires forall id :: id in s.batches[pid] ==> HeldOk(s', id, s'.batches[pid][id])
    requires forall q, id :: q in s.batches && q != pid && id in s.batches[q] ==>
                               CountSends(s'.sends, id, s.batches[q][id].attempt) == CountSends(s.sends, id, s.batches[q][id].attempt)
    requires forall id :: id in s.taken ==> id in s'.taken
    requires SendsOk(s') && TakenOk(s')
    ensures OutboxInv(s')
  {
    hide CountSends, SendsOk, TakenOk;
    forall p, id | p in s'.batches && id in s'.batches[p] ensures HeldOk(s', id, s'.batches[p][id]) {
      if p != pid {
        assert HeldOk(s, id, s.batches[p][id]);
      }
    }
  }

  lemma SendBatchKeeps(s: State, a: Action)
    requires OutboxInv(s) && Enabled(s, a) && a.SendBatch?
    ensures OutboxInv(Perform(s, a))
  {
    hide Distinct;
    var s' := Perform(s, a);
    var b := s.batches[a.pid];
    forall id, attempt: nat
      ensures CountSends(s'.sends, id, attempt)
           == CountSends(s.sends, id, attempt) + if id in Elements(a.chunk) && b[id].attempt == attempt then 1 else 0
    {
      CountAppends(s.sends, Sent(b, a.chunk), id, attempt);
      CountDistinct(b, a.chunk, id, attempt);
    }
    ChunkHeld(s, a, s');
    ChunkSends(s, a, s');
    forall q, id | q in s.batches && q != a.pid && id in s.batches[q]
      ensures CountSends(s'.sends, id, s.batches[q][id].attempt) == CountSends(s.sends, id, s.batches[q][id].attempt)
    {
      if id in Elements(a.chunk) {
        assert id in b && b[id].attempt != s.batches[q][id].attempt;
      }
    }
    MoveKeeps(s, s', a.pid);
  }

  /** The counts after a chunk was sent. */
  ghost predicate ChunkCounted(s: State, a: Action, s': State)
    requires Enabled(s, a) && a.SendBatch?
  {
    forall id, attempt: nat ::
      CountSends(s'.sends, id, attempt)
      == CountSends(s.sends, id, attempt)
         + if id in Elements(a.chunk) && s.batches[a.pid][id].attempt == attempt then 1 else 0
  }

  lemma ChunkHeld(s: State, a: Action, s': State)
    requires OutboxInv(s) && Enabled(s, a) && a.SendBatch? && s' == Perform(s, a) && ChunkCounted(s, a, s')
    ensures forall id :: id in s.batches[a.pid] ==> HeldOk(s', id, s'.batches[a.pid][id])
  {
    hide CountSends, Distinct;
    forall id | id in s.batches[a.pid] ensures HeldOk(s', id, s'.batches[a.pid][id]) {
      assert HeldOk(s, id, s.batches[a.pid][id]);
    }
  }

  lemma ChunkSends(s: State, a: Action, s': State)
    requires OutboxInv(s) && Enabled(s, a) && a.SendBatch? && s' == Perform(s, a) && ChunkCounted(s, a, s')
    ensures SendsOk(s') && TakenOk(s')
  {
    hide CountSends, Distinct;
    forall id | id in Elements(a.chunk) ensures id in s.rows && CountSends(s.sends, id, s.batches[a.pid][id].attempt) == 0 {
      assert HeldOk(s, id, s.batches[a.pid][id]);
    }
    forall x | x in s'.sends ensures x.id in s'.rows && 1 <= x.attempt <= s'.rows[x.id].attempts {
      if x !in s.sends {
        var i :| 0 <= i < |a.chunk| && Sent(s.batches[a.pid], a.chunk)[i] == x;
        assert a.chunk[i] in Elements(a.chunk);
        assert HeldOk(s, x.id, s.batches[a.pid][x.id]);
      }
    }
    forall id | id in s'.taken ensures id in s'.rows {
      if id !in s.taken {
        assert id in Elements(a.landed);
      }
    }
  }

  lemma SendOneKeeps(s: State, a: Action)
    requires OutboxInv(s) && Enabled(s, a) && a.SendOne?
    ensures OutboxInv(Perform(s, a))
  {
    var s' := Perform(s, a);
    var held := s.batches[a.pid][a.id];
    assert HeldOk(s, a.id, held);
    forall id, attempt: nat
      ensures CountSends(s'.sends, id, attempt)
           == CountSends(s.sends, id, attempt) + if id == a.id && held.attempt == attempt then 1 else 0
    {
      assert s'.sends[..|s.sends|] == s.sends;
    }
    forall id | id in s.batches[a.pid] ensures HeldOk(s', id, s'.batches[a.pid][id]) {
      assert HeldOk(s, id, s.batches[a.pid][id]);
    }
    MoveKeeps(s, s', a.pid);
  }

  lemma SettleSends(s: State, a: Action)
    requires SendsOk(s) && Enabled(s, a) && (a.Acknowledge? || a.Reschedule?)
    ensures SendsOk(Perform(s, a))
  {
    hide CountSends, Moved, AllIn;
  }

  lemma SettleKeeps(s: State, a: Action)
    requires OutboxInv(s) && Enabled(s, a) && (a.Acknowledge? || a.Reschedule?)
    ensures OutboxInv(Perform(s, a))
  {
    hide CountSends, SendsOk, ClaimsApart;
    var s' := Perform(s, a);
    forall id | id in s.batches[a.pid] ensures HeldOk(s', id, s'.batches[a.pid][id]) {
      assert HeldOk(s, id, s.batches[a.pid][id]);
    }
    SettleSends(s, a);
    MoveKeeps(s, s', a.pid);
  }

  lemma ActionKeeps(s: State, a: Action)
    requires OutboxInv(s) && Enabled(s, a)
    ensures OutboxInv(Perform(s, a))
  {
    hide CountSends, Enabled, Moved, Sent, NewBatch;
    match a
    case Claim(_, _, _, _, _) => ClaimKeeps(s, a);
    case SendBatch(_, _, _, _) => SendBatchKeeps(s, a);
    case SendOne(_, _, _, _) => SendOneKeeps(s, a);
    case Acknowledge(_, _, _, _) => SettleKeeps(s, a);
    case Reschedule(_, _, _, _) => SettleKeeps(s, a);
    case _ => QuietKeeps(s, a);
  }

  lemma QuietKeeps(s: State, a: Action)
    requires OutboxInv(s) && Enabled(s, a) && (a.Pass? || a.Commit? || a.Stop?)
    ensures OutboxInv(Perform(s, a))
  {
    hide CountSends;
    var s' := Perform(s, a);
    forall p, id | p in s'.batches && id in s'.batches[p] ensures HeldOk(s', id, s'.batches[p][id]) {
      assert HeldOk(s, id, s.batches[p][id]);
    }
  }

  // ---- safety over runs ----

  /**
   Over every run: the broker only ever gets committed events; an event is marked published only after
   the broker took it; and one claim sends an event at most twice.
   */
  lemma {:induction false} OutboxIsSafe(states: seq<State>, actions: seq<Action>, i: nat)
    requires IsRun(states, actions) && i < |states|
    ensures OutboxInv(states[i])
    ensures forall x :: x in states[i].sends ==> x.id in states[i].rows
    ensures forall id :: id in states[i].rows && states[i].rows[id].publishedAt.Some? ==> id in states[i].taken
    ensures forall id, attempt: nat :: CountSends(states[i].sends, id, attempt) <= 2
  {
    hide Enabled, Perform, CountSends;
    if i == 0 {
      NothingYet();
    } else {
      OutboxIsSafe(states, actions, i - 1);
      ActionKeeps(states[i - 1], actions[i - 1]);
    }
  }

  lemma NothingYet()
    ensures OutboxInv(START)
  {
    forall id, attempt: nat ensures CountSends([], id, attempt) == 0 {}
  }

  lemma PublishedStays(s: State, a: Action, id: Uuid)
    requires Enabled(s, a) && id in s.rows
    ensures id in Perform(s, a).rows
    ensures s.rows[id].publishedAt.Some? ==> Perform(s, a).rows[id] == s.rows[id]
  {}

  /** Once published, a row is never touched again. */
  lemma {:induction false} PublishedIsForever(states: seq<State>, actions: seq<Action>, i: nat, j: nat, id: Uuid)
    requires IsRun(states, actions) && i <= j < |states| && id in states[i].rows && states[i].rows[id].publishedAt.Some?
    ensures id in states[j].rows && states[j].rows[id] == states[i].rows[id]
    decreases j
  {
    hide Enabled, Perform;
    if i < j {
      PublishedIsForever(states, actions, i, j - 1, id);
      PublishedStays(states[j - 1], actions[j - 1], id);
    }
  }

  // ---- leases ----

  predicate Claims(a: Action, id: Uuid) {
    a.Claim? && id in a.ids
  }

  predicate Releases(a: Action, id: Uuid) {
    a.Reschedule? && a.id == id && a.works
  }

  ghost predicate ReleasedBetween(actions: seq<Action>, id: Uuid, i: nat, j: nat)
    requires j <= |actions|
  {
    exists k :: i < k < j && Releases(actions[k], id)
  }

  /** The row is out of reach until a moment. */
  predicate OutOfReach(r: Row, until: Time) {
    r.publishedAt.Some? || (r.lockedUntil.Some? && r.lockedUntil.value >= until)
  }

  lemma StaysOutOfReach(s: State, a: Action, id: Uuid, until: Time)
    requires Enabled(s, a) && id in s.rows && OutOfReach(s.rows[id], until) && !Releases(a, id)
    ensures id in Perform(s, a).rows && OutOfReach(Perform(s, a).rows[id], until)
  {}

  lemma ReleasedEarlier(actions: seq<Action>, id: Uuid, i: nat, j: nat)
    requires 1 <= j <= |actions|
    ensures ReleasedBetween(actions, id, i, j - 1) ==> ReleasedBetween(actions, id, i, j)
  {
    if ReleasedBetween(actions, id, i, j - 1) {
      var k :| i < k < j - 1 && Releases(actions[k], id);
      assert i < k < j && Releases(actions[k], id);
    }
  }

  lemma {:induction false} LeaseHolds(states: seq<State>, actions: seq<Action>, i: nat, j: nat, id: Uuid)
    requires IsRun(states, actions) && i < j <= |actions| && Claims(actions[i], id) && !ReleasedBetween(actions, id, i, j)
    ensures id in states[j].rows && OutOfReach(states[j].rows[id], actions[i].at + actions[i].lease)
    decreases j
  {
    hide Perform, OutOfReach, Enabled;
    if j == i + 1 {
      ClaimLocks(states[i], actions[i], id);
    } else {
      ReleasedEarlier(actions, id, i, j);
      LeaseHolds(states, actions, i, j - 1, id);
      StaysOutOfReach(states[j - 1], actions[j - 1], id, actions[i].at + actions[i].lease);
    }
  }

  lemma ClaimLocks(s: State, a: Action, id: Uuid)
    requires Enabled(s, a) && Claims(a, id)
    ensures id in Perform(s, a).rows && OutOfReach(Perform(s, a).rows[id], a.at + a.lease)
  {}

  /**
   Any two claims of one event are separated by the end of the first lease, or by a rescheduling of the
   event; the rescheduling may come from any publisher that once claimed it, as the statement does not ask
   whose lease it ends.
   */
  lemma LeasesExclude(states: seq<State>, actions: seq<Action>, i: nat, j: nat, id: Uuid)
    requires IsRun(states, actions) && i < j < |actions| && Claims(actions[i], id) && Claims(actions[j], id)
    ensures actions[i].at + actions[i].lease < actions[j].at || ReleasedBetween(actions, id, i, j)
  {
    hide Perform;
    if !ReleasedBetween(actions, id, i, j) {
      LeaseHolds(states, actions, i, j, id);
      assert Claimable(states[j].rows[id], actions[j].at);
    }
  }

  // ---- whose lease it is ----

  /** The latest claim of the event before moment j. */
  ghost predicate LastClaim(actions: seq<Action>, id: Uuid, k: nat, j: nat)
    requires j <= |actions|
  {
    k < j && Claims(actions[k], id) && NotClaimedIn(actions, id, k + 1, j)
  }

  ghost predicate NotClaimedIn(actions: seq<Action>, id: Uuid, i: nat, j: nat)
    requires j <= |actions|
  {
    forall k :: i <= k < j ==> !Claims(actions[k], id)
  }

  /** The batch the publisher works on at moment j is the one it claimed at k. */
  ghost predicate WorksOn(actions: seq<Action>, pid: Pid, k: nat, j: nat)
    requires j <= |actions|
  {
    k < j && actions[k].Claim? && actions[k].pid == pid && forall l :: k < l < j ==> actions[l] != Stop(pid)
  }

  lemma HeldBefore(s: State, a: Action, pid: Pid, id: Uuid)
    requires Enabled(s, a) && var t := Perform(s, a).batches; pid in t && id in t[pid]
    ensures var attempt := Perform(s, a).batches[pid][id].attempt;
            if a.Claim? && a.pid == pid then id in a.ids && id in s.rows && attempt == s.rows[id].attempts + 1
            else a != Stop(pid) && pid in s.batches && id in s.batches[pid] && s.batches[pid][id].attempt == attempt
  {}

  /** Whatever a publisher holds it claimed, under the number the row's counter then took. */
  lemma {:induction false} Origin(states: seq<State>, actions: seq<Action>, j: nat, pid: Pid, id: Uuid) returns (k: nat)
    requires IsRun(states, actions) && j < |states| && pid in states[j].batches && id in states[j].batches[pid]
    ensures WorksOn(actions, pid, k, j) && Claims(actions[k], id)
    ensures id in states[k].rows && states[j].batches[pid][id].attempt == states[k].rows[id].attempts + 1
    decreases j
  {
    hide Enabled, Perform;
    if j == 0 {
      assert false;
    } else {
      HeldBefore(states[j - 1], actions[j - 1], pid, id);
      if actions[j - 1].Claim? && actions[j - 1].pid == pid {
        k := j - 1;
      } else {
        k := Origin(states, actions, j - 1, pid, id);
      }
    }
  }

  lemma KeepsBatch(s: State, a: Action, pid: Pid)
    requires Enabled(s, a) && a != Stop(pid)
    ensures pid in s.batches || (a.Claim? && a.pid == pid) ==> pid in Perform(s, a).batches
  {}

  lemma {:induction false} KeepsWorking(states: seq<State>, actions: seq<Action>, pid: Pid, k: nat, j: nat)
    requires IsRun(states, actions) && j <= |actions| && WorksOn(actions, pid, k, j)
    ensures pid in states[j].batches
    decreases j
  {
    hide Enabled, Perform;
    if k + 1 < j {
      KeepsWorking(states, actions, pid, k, j - 1);
    }
    KeepsBatch(states[j - 1], actions[j - 1], pid);
  }

  lemma CountsClaim(s: State, a: Action, id: Uuid)
    requires Enabled(s, a) && id in s.rows
    ensures id in Perform(s, a).rows
    ensures Perform(s, a).rows[id].attempts == s.rows[id].attempts + if Claims(a, id) then 1 else 0
  {}

  /** The counter of a row moves with its claims and with nothing else. */
  lemma {:induction false} CountsClaims(states: seq<State>, actions: seq<Action>, id: Uuid, i: nat, j: nat)
    requires IsRun(states, actions) && i <= j < |states| && id in states[i].rows
    ensures id in states[j].rows && states[i].rows[id].attempts <= states[j].rows[id].attempts
    ensures states[i].rows[id].attempts == states[j].rows[id].attempts <==> NotClaimedIn(actions, id, i, j)
    decreases j
  {
    hide Enabled, Perform;
    if i < j {
      CountsClaims(states, actions, id, i, j - 1);
      CountsClaim(states[j - 1], actions[j - 1], id);
    }
  }

  lemma {:induction false} Latest(actions: seq<Action>, id: Uuid, k: nat, j: nat) returns (last: nat)
    requires k < j <= |actions| && Claims(actions[k], id)
    ensures k <= last && LastClaim(actions, id, last, j)
    decreases j
  {
    if Claims(actions[j - 1], id) {
      last := j - 1;
    } else {
      last := Latest(actions, id, k, j - 1);
    }
  }

  /** The row's lock, if it has one, is the lease of its latest claim. */
  predicate LockedBy(r: Row, a: Action)
    requires a.Claim?
  {
    r.publishedAt.None? && r.lockedUntil.Some? ==> r.lockedUntil == Some(a.at + a.lease) && r.lockedBy == Some(a.publisher)
  }

  lemma LockStays(s: State, a: Action, id: Uuid, claim: Action)
    requires Enabled(s, a) && id in s.rows && claim.Claim? && LockedBy(s.rows[id], claim) && !Claims(a, id)
    ensures id in Perform(s, a).rows && LockedBy(Perform(s, a).rows[id], claim)
  {}

  lemma ClaimTakesLock(s: State, a: Action, id: Uuid)
    requires Enabled(s, a) && Claims(a, id)
    ensures id in Perform(s, a).rows && LockedBy(Perform(s, a).rows[id], a)
  {}

  lemma {:induction false} LockIsLastClaims(states: seq<State>, actions: seq<Action>, id: Uuid, k: nat, j: nat)
    requires IsRun(states, actions) && j <= |actions| && LastClaim(actions, id, k, j)
    ensures id in states[j].rows && LockedBy(states[j].rows[id], actions[k])
    decreases j
  {
    hide Enabled, Perform, LockedBy;
    if k + 1 == j {
      ClaimTakesLock(states[k], actions[k], id);
    } else {
      LockIsLastClaims(states, actions, id, k, j - 1);
      LockStays(states[j - 1], actions[j - 1], id, actions[k]);
    }
  }

  /** The claim a publisher works on is the latest one exactly while its number is the row's counter. */
  lemma OwnOrLater(states: seq<State>, actions: seq<Action>, j: nat, pid: Pid, id: Uuid, own: nat, last: nat)
    requires IsRun(states, actions) && j <= |actions| && pid in states[j].batches && id in states[j].batches[pid]
    requires WorksOn(actions, pid, own, j) && Claims(actions[own], id) && LastClaim(actions, id, last, j) && own <= last
    requires id in states[own].rows && states[j].batches[pid][id].attempt == states[own].rows[id].attempts + 1
    ensures id in states[j].rows
    ensures states[j].batches[pid][id].attempt < states[j].rows[id].attempts <==> own < last
    ensures actions[last].pid != pid <==> own < last
  {
    hide Perform;
    CountsClaim(states[own], actions[own], id);
    CountsClaims(states, actions, id, own + 1, j);
    if own < last {
      assert WorksOn(actions, pid, own, last);
      KeepsWorking(states, actions, pid, own, last);
    }
  }

  /**
   Whose lease a rescheduling ends, at any moment of any run: the lock on an unpublished row is the lease of
   the latest claim, and that claim is another publisher's exactly when the number under which the rescheduling
   publisher claimed the event is behind the row's counter. Otherwise it is its own.
   */
  lemma RescheduleEndsLeaseOf(states: seq<State>, actions: seq<Action>, j: nat, id: Uuid) returns (own: nat, last: nat)
    requires IsRun(states, actions) && j < |actions| && Releases(actions[j], id)
    ensures id in states[j].rows && actions[j].pid in states[j].batches && id in states[j].batches[actions[j].pid]
    ensures WorksOn(actions, actions[j].pid, own, j) && Claims(actions[own], id)
    ensures own <= last && LastClaim(actions, id, last, j) && LockedBy(states[j].rows[id], actions[last])
    ensures actions[last].pid != actions[j].pid <==> states[j].batches[actions[j].pid][id].attempt < states[j].rows[id].attempts
    ensures own == last <==> states[j].batches[actions[j].pid][id].attempt == states[j].rows[id].attempts
  {
    hide Perform, CountSends;
    own := Origin(states, actions, j, actions[j].pid, id);
    last := Latest(actions, id, own, j);
    LockIsLastClaims(states, actions, id, last, j);
    OwnOrLater(states, actions, j, actions[j].pid, id, own, last);
    OutboxIsSafe(states, actions, j);
    assert HeldOk(states[j], id, states[j].batches[actions[j].pid][id]);
  }

  // ---- exactly when a lease excludes ----

  predicate Unlocked(r: Row) {
    r.publishedAt.Some? || r.lockedUntil.None?
  }

  lemma StaysUnlocked(s: State, a: Action, id: Uuid)
    requires Enabled(s, a) && id in s.rows && !Claims(a, id) && (Unlocked(s.rows[id]) || Releases(a, id))
    ensures id in Perform(s, a).rows && Unlocked(Perform(s, a).rows[id])
  {}

  lemma {:induction false} ReleasedIsUnlocked(states: seq<State>, actions: seq<Action>, id: Uuid, k: nat, j: nat)
    requires IsRun(states, actions) && k < j <= |actions| && Releases(actions[k], id) && NotClaimedIn(actions, id, k, j)
    requires id in states[k].rows
    ensures id in states[j].rows && Unlocked(states[j].rows[id])
    decreases j
  {
    hide Enabled, Perform, Unlocked;
    if k + 1 < j {
      ReleasedIsUnlocked(states, actions, id, k, j - 1);
    }
    StaysUnlocked(states[j - 1], actions[j - 1], id);
  }

  /**
   Exactly when a lease excludes. While the claim at i is the latest and the event is unpublished, at any
   instant inside its lease the event can be claimed exactly when it was rescheduled since and its next attempt has come.
   */
  lemma LeaseExcludesUnlessReleased(states: seq<State>, actions: seq<Action>, i: nat, j: nat, id: Uuid, now: Time)
    requires IsRun(states, actions) && j <= |actions| && LastClaim(actions, id, i, j)
    requires now <= actions[i].at + actions[i].lease
    ensures id in states[j].rows
    ensures states[j].rows[id].publishedAt.None? ==>
              (Claimable(states[j].rows[id], now) <==> ReleasedBetween(actions, id, i, j) && states[j].rows[id].nextAttempt <= now)
  {
    hide Enabled, Perform;
    CountsClaimedRow(states, actions, id, i, j);
    if ReleasedBetween(actions, id, i, j) {
      var k :| i < k < j && Releases(actions[k], id);
      CountsClaimedRow(states, actions, id, i, k);
      ReleasedIsUnlocked(states, actions, id, k, j);
    } else {
      LeaseHolds(states, actions, i, j, id);
    }
  }

  lemma CountsClaimedRow(states: seq<State>, actions: seq<Action>, id: Uuid, i: nat, j: nat)
    requires IsRun(states, actions) && i <= j <= |actions| && i < |actions| && Claims(actions[i], id)
    ensures id in states[j].rows
  {
    hide Perform, NotClaimedIn;
    CountsClaims(states, actions, id, i, j);
  }

  /** Before moment j, whoever rescheduled the event held its latest claim. */
  ghost predicate NoStaleReschedule(states: seq<State>, actions: seq<Action>, id: Uuid, j: nat)
    requires IsRun(states, actions) && j <= |actions|
  {
    forall k | 0 <= k < j && Releases(actions[k], id) ::
      var s, pid := states[k], actions[k].pid;
      id in s.rows && pid in s.batches && id in s.batches[pid] ==> s.batches[pid][id].attempt == s.rows[id].attempts
  }

  /** The publisher that claimed the event at i has itself rescheduled it out of that batch. */
  ghost predicate ReleasedByHolder(actions: seq<Action>, id: Uuid, i: nat, j: nat)
    requires i < j <= |actions| && Claims(actions[i], id)
  {
    exists k :: i < k < j && Releases(actions[k], id) && actions[k].pid == actions[i].pid && WorksOn(actions, actions[i].pid, i, k)
  }

  /**
   Where no rescheduling is stale, two claims of an event that follow one another lie apart by the whole of the
   first lease unless its own holder gave it up.
   */
  lemma OnlyTheHolderEndsALease(states: seq<State>, actions: seq<Action>, i: nat, j: nat, id: Uuid)
    requires IsRun(states, actions) && j < |actions| && LastClaim(actions, id, i, j) && Claims(actions[j], id)
    requires NoStaleReschedule(states, actions, id, j)
    ensures actions[i].at + actions[i].lease < actions[j].at || ReleasedByHolder(actions, id, i, j)
  {
    hide Enabled, Perform, WorksOn, LockedBy;
    LeasesExclude(states, actions, i, j, id);
    if ReleasedBetween(actions, id, i, j) {
      var k :| i < k < j && Releases(actions[k], id);
      var own, last := RescheduleEndsLeaseOf(states, actions, k, id);
      assert own == last == i;
    }
  }

  /**
   Publisher 1's lease of event 7 ends unnoticed and 2 claims the event; the broker call of 1 fails and 1
   reschedules the event; 3 claims it while the lease of 2 still runs.
   */
  function ExampleAction(i: nat): Action {
    if i == 0 then Commit(7)
    else if i == 1 then Claim(1, "a", {7}, 0, 5)
    else if i == 2 then Pass(6)
    else if i == 3 then Claim(2, "b", {7}, 6, 5)
    else if i == 4 then SendOne(1, 7, false, false)
    else if i == 5 then Reschedule(1, 7, 6, true)
    else Claim(3, "c", {7}, 6, 5)
  }

  function ExampleState(i: nat): State {
    if i == 0 then START
    else if i == 1 then State(map[7 := Fresh(0)], map[], [], [], 0)
    else if i == 2 then State(map[7 := Row(0, Some("a"), Some(5), 1, None)], map[1 := map[7 := Held(1, Waiting)]], [], [], 0)
    else if i == 3 then ExampleState(2).(clock := 6)
    else if i == 4 then
      State(map[7 := Row(0, Some("b"), Some(11), 2, None)], map[1 := map[7 := Held(1, Waiting)], 2 := map[7 := Held(2, Waiting)]], [], [], 6)
    else if i == 5 then
      ExampleState(4).(batches := map[1 := map[7 := Held(1, Refused)], 2 := map[7 := Held(2, Waiting)]], sends := [Sending(7, 1)])
    else if i == 6 then
      State(map[7 := Row(6, None, None, 2, None)], map[1 := map[7 := Held(1, Settled)], 2 := map[7 := Held(2, Waiting)]], [Sending(7, 1)], [], 6)
    else
      State(map[7 := Row(6, Some("c"), Some(11), 3, None)],
            map[1 := map[7 := Held(1, Settled)], 2 := map[7 := Held(2, Waiting)], 3 := map[7 := Held(3, Waiting)]], [Sending(7, 1)], [], 6)
  }

  lemma ExampleClaims(i: nat)
    requires i == 1 || i == 3 || i == 6
    ensures Enabled(ExampleState(i), ExampleAction(i)) && ExampleState(i + 1) == Perform(ExampleState(i), ExampleAction(i))
  {
    var s, a, t := ExampleState(i), ExampleAction(i), ExampleState(i + 1);
    assert ClaimAll(s.rows, a.ids, a.publisher, a.at, a.lease) == t.rows;
    assert NewBatch(s.rows, a.ids) == t.batches[a.pid];
    assert s.batches[a.pid := t.batches[a.pid]] == t.batches;
  }

  lemma ExampleRest(i: nat)
    requires i == 0 || i == 2 || i == 4 || i == 5
    ensures Enabled(ExampleState(i), ExampleAction(i)) && ExampleState(i + 1) == Perform(ExampleState(i), ExampleAction(i))
  {
    var s, t := ExampleState(i), ExampleState(i + 1);
    if i == 4 || i == 5 {
      assert Moved(s.batches[1], {7}, if i == 4 then Refused else Settled) == t.batches[1];
      assert s.batches[1 := t.batches[1]] == t.batches;
    }
  }

  lemma ExampleStep(i: nat)
    requires i < 7
    ensures Enabled(ExampleState(i), ExampleAction(i)) && ExampleState(i + 1) == Perform(ExampleState(i), ExampleAction(i))
  {
    hide Enabled, Perform, ExampleState;
    if i == 1 || i == 3 || i == 6 {
      ExampleClaims(i);
    } else {
      ExampleRest(i);
    }
  }

  /** A publisher past its lease can end another's. */
  lemma LeaseCanBeEndedByOthers() returns (states: seq<State>, actions: seq<Action>)
    ensures IsRun(states, actions) && |actions| == 7
    ensures Claims(actions[3], 7) && Claims(actions[6], 7) && actions[3].pid != actions[6].pid
    ensures Releases(actions[5], 7) && actions[5].pid != actions[3].pid
    ensures actions[6].at <= actions[3].at + actions[3].lease
  {
    hide Enabled, Perform, ExampleState;
    states := seq(8, i requires 0 <= i < 8 => ExampleState(i));
    actions := seq(7, i requires 0 <= i < 7 => ExampleAction(i));
    forall i | 0 <= i < 7 ensures Enabled(states[i], actions[i]) && states[i + 1] == Perform(states[i], actions[i]) {
      ExampleStep(i);
    }
    ExampleStarts();
  }

  lemma ExampleStarts()
    ensures ExampleState(0) == START
  {}

  // ---- several actions ----

  /** The actions lead from one state to another. */
  ghost predicate Path(s: State, actions: seq<Action>, t: State)
    decreases |actions|
  {
    if actions == [] then t == s else Enabled(s, actions[0]) && Path(Perform(s, actions[0]), actions[1..], t)
  }

  lemma PathOfOne(s: State, a: Action)
    requires Enabled(s, a)
    ensures Path(s, [a], Perform(s, a))
  {}

  lemma {:induction false} PathThen(s: State, a: seq<Action>, t: State, b: seq<Action>, u: State)
    requires Path(s, a, t) && Path(t, b, u)
    ensures Path(s, a + b, u)
    decreases |a|
  {
    hide Enabled, Perform;
    if a == [] {
      assert a + b == b;
    } else {
      PathThen(Perform(s, a[0]), a[1..], t, b, u);
      assert (a + b)[1..] == a[1..] + b;
    }
  }

  /** What a run reaches, a path continues. */
  lemma {:induction false} PathIsRun(states: seq<State>, actions: seq<Action>, path: seq<Action>, t: State)
    returns (states': seq<State>, actions': seq<Action>)
    requires IsRun(states, actions) && Path(states[|actions|], path, t)
    ensures IsRun(states', actions') && actions' == actions + path && states <= states' && states'[|actions'|] == t
    decreases |path|
  {
    hide Enabled, Perform;
    if path == [] {
      states', actions' := states, actions;
    } else {
      var next := Perform(states[|actions|], path[0]);
      states', actions' := PathIsRun(states + [next], actions + [path[0]], path[1..], t);
      assert actions + [path[0]] + path[1..] == actions + path;
    }
  }

  // ---- nothing is stuck ----

  /** When an unpublished row can be claimed again at the latest, if nobody touches it before. */
  function FreeFrom(r: Row): Time {
    if r.lockedUntil.Some? && r.lockedUntil.value + 1 > r.nextAttempt then r.lockedUntil.value + 1 else r.nextAttempt
  }

  /** An unpublished row is claimable exactly from that moment on, whatever became of the publishers that held it. */
  lemma UnpublishedComesFree(r: Row, now: Time)
    requires r.publishedAt.None?
    ensures Claimable(r, now) <==> FreeFrom(r) <= now
  {}

  /** Wherever a run stands, time alone makes an unpublished event claimable by any publisher that is idle. */
  lemma UnpublishedCanBeClaimed(s: State, id: Uuid, pid: Pid, publisher: string, lease: Time)
    requires id in s.rows && s.rows[id].publishedAt.None? && pid !in s.batches && lease > 0
    ensures var at := if FreeFrom(s.rows[id]) > s.clock then FreeFrom(s.rows[id]) else s.clock;
            Enabled(s, Pass(at)) && Enabled(Perform(s, Pass(at)), Claim(pid, publisher, {id}, at, lease))
  {
    hide FreeFrom, Claimable;
    var at := if FreeFrom(s.rows[id]) > s.clock then FreeFrom(s.rows[id]) else s.clock;
    UnpublishedComesFree(s.rows[id], at);
  }

  // ---- a consumer that remembers event ids ----

  /** What a consumer handles of what the broker took: every event the first time it sees its id. */
  function Deduplicated(taken: seq<Uuid>): seq<Uuid> {
    if taken == [] then []
    else
      var before := Deduplicated(taken[..|taken| - 1]);
      if taken[|taken| - 1] in before then before else before + [taken[|taken| - 1]]
  }

  lemma {:induction false} DeduplicatedOnce(taken: seq<Uuid>)
    ensures Distinct(Deduplicated(taken)) && Elements(Deduplicated(taken)) == Elements(taken)
  {
    if taken != [] {
      var front, last := taken[..|taken| - 1], taken[|taken| - 1];
      DeduplicatedOnce(front);
      assert taken == front + [last];
      ElementsGrow(front, last);
      ElementsGrow(Deduplicated(front), last);
      assert last in Deduplicated(front) <==> last in Elements(Deduplicated(front));
    }
  }

  /** Over every run: such a consumer handles every published event, none twice, and nothing that was not committed. */
  lemma PublishedIsSeenOnce(states: seq<State>, actions: seq<Action>, i: nat)
    requires IsRun(states, actions) && i < |states|
    ensures var seen := Deduplicated(states[i].taken);
            && Distinct(seen)
            && (forall id :: id in states[i].rows && states[i].rows[id].publishedAt.Some? ==> id in seen)
            && (forall id :: id in seen ==> id in states[i].rows)
  {
    hide IsRun, Distinct, BatchesOk, SendsOk, ClaimsApart;
    OutboxIsSafe(states, actions, i);
    DeduplicatedOnce(states[i].taken);
    forall id ensures id in Deduplicated(states[i].taken) <==> id in states[i].taken {
      assert id in Elements(Deduplicated(states[i].taken)) <==> id in Elements(states[i].taken);
    }
  }
}
