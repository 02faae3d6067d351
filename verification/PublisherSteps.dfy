/**
 What the steps of one publisher amount to: how often the broker takes an event, and which actions of the
 outbox protocol they are.
 */
module PublisherSteps {
  import opened Basics
  import opened Outbox
  import Runs = OutboxRuns

  // ---- how often the broker takes an event ----

  function Count(log: seq<Uuid>, id: Uuid): nat {
    if log == [] then 0 else Count(log[..|log| - 1], id) + (if log[|log| - 1] == id then 1 else 0)
  }

  /** Only these events, each at most n times. */
  ghost predicate AtMost(log: seq<Uuid>, ids: set<Uuid>, n: nat) {
    Elements(log) <= ids && forall id :: Count(log, id) <= n
  }

  lemma {:induction false} CountJoins(a: seq<Uuid>, b: seq<Uuid>, id: Uuid)
    ensures Count(a + b, id) == Count(a, id) + Count(b, id)
  {
    if b == [] {
      assert a + b == a;
    } else {
      assert (a + b)[..|a + b| - 1] == a + b[..|b| - 1];
      CountJoins(a, b[..|b| - 1], id);
    }
  }

  lemma {:induction false} CountNone(log: seq<Uuid>, id: Uuid)
    requires id !in Elements(log)
    ensures Count(log, id) == 0
  {
    if log != [] {
      assert log[|log| - 1] in Elements(log) && Elements(log[..|log| - 1]) <= Elements(log);
      CountNone(log[..|log| - 1], id);
    }
  }

  lemma JoinedElements(a: seq<Uuid>, b: seq<Uuid>)
    ensures Elements(a + b) == Elements(a) + Elements(b)
  {
    forall x ensures x in Elements(a + b) <==> x in Elements(a) + Elements(b) {
      assert x in Elements(a + b) <==> x in a + b;
      assert x in Elements(a) + Elements(b) <==> x in a || x in b;
    }
  }

  /** Different events do not add up. */
  lemma AtMostApart(a: seq<Uuid>, ids: set<Uuid>, b: seq<Uuid>, ids': set<Uuid>, n: nat)
    requires AtMost(a, ids, n) && AtMost(b, ids', n) && ids !! ids'
    ensures AtMost(a + b, ids + ids', n)
  {
    hide Elements;
    JoinedElements(a, b);
    forall id ensures Count(a + b, id) <= n {
      CountJoins(a, b, id);
      if id in ids {
        CountNone(b, id);
      } else {
        CountNone(a, id);
      }
    }
  }

  /** The same events do. */
  lemma AtMostTwice(a: seq<Uuid>, b: seq<Uuid>, ids: set<Uuid>)
    requires AtMost(a, ids, 1) && AtMost(b, ids, 1)
    ensures AtMost(a + b, ids, 2)
  {
    hide Elements;
    JoinedElements(a, b);
    forall id ensures Count(a + b, id) <= 2 {
      CountJoins(a, b, id);
    }
  }

  lemma AtMostOne(id: Uuid)
    ensures AtMost([id], {id}, 1) && AtMost([], {id}, 1) && AtMost([], {}, 1)
  {
    forall x ensures Count([id], x) <= 1 {
      assert Count([id][..0], x) == 0;
    }
  }

  lemma OnceIsAtMostTwice(a: seq<Uuid>, ids: set<Uuid>)
    requires AtMost(a, ids, 1)
    ensures AtMost(a, ids, 2)
  {}

  /** The log's growth in two parts. */
  lemma LaterGrowth(first: seq<Uuid>, mid: seq<Uuid>, last: seq<Uuid>)
    requires first <= mid <= last
    ensures last[|first|..] == mid[|first|..] + last[|mid|..]
  {}

  // ---- the publisher as one of many ----

  /** The state of the protocol that table and broker are in. */
  ghost predicate Mirrors(s: Runs.State, rows: Table, log: seq<Uuid>) {
    s.rows == rows && s.taken == log
  }

  /** Actions of one publisher that settle these rows of its batch and move nothing else. */
  ghost predicate Settles(s: Runs.State, steps: seq<Runs.Action>, t: Runs.State, pid: Runs.Pid, ids: set<Uuid>) {
    && pid in s.batches && Runs.Path(s, steps, t) && t.clock == s.clock
    && t.batches == s.batches[pid := Runs.Moved(s.batches[pid], ids, Runs.Settled)]
  }

  /** Neither answered for nor settled yet. */
  ghost predicate Sendable(s: Runs.State, pid: Runs.Pid, ids: set<Uuid>) {
    pid in s.batches && forall id :: id in ids ==> id in s.batches[pid] && (s.batches[pid][id].stage.Waiting? || s.batches[pid][id].stage.Tried?)
  }

  ghost predicate Staged(s: Runs.State, pid: Runs.Pid, ids: set<Uuid>, stage: Runs.Stage) {
    pid in s.batches && Runs.AllIn(s.batches[pid], ids, stage)
  }

  lemma NothingSettled(s: Runs.State, pid: Runs.Pid)
    requires pid in s.batches
    ensures Settles(s, [], s, pid, {})
  {
    assert Runs.Moved(s.batches[pid], {}, Runs.Settled) == s.batches[pid];
  }

  lemma SettlesMore(s: Runs.State, a: seq<Runs.Action>, t: Runs.State, b: seq<Runs.Action>, u: Runs.State,
                    pid: Runs.Pid, ids: set<Uuid>, ids': set<Uuid>)
    requires Settles(s, a, t, pid, ids) && Settles(t, b, u, pid, ids')
    ensures Settles(s, a + b, u, pid, ids + ids')
  {
    hide Runs.Path;
    Runs.PathThen(s, a, t, b, u);
    assert Runs.Moved(Runs.Moved(s.batches[pid], ids, Runs.Settled), ids', Runs.Settled)
        == Runs.Moved(s.batches[pid], ids + ids', Runs.Settled);
  }

  /** What is not settled is as it was. */
  lemma OthersKeepStage(s: Runs.State, steps: seq<Runs.Action>, t: Runs.State, pid: Runs.Pid, ids: set<Uuid>,
                        others: set<Uuid>, stage: Runs.Stage)
    requires Settles(s, steps, t, pid, ids) && ids !! others
    ensures Sendable(s, pid, others) ==> Sendable(t, pid, others)
    ensures Staged(s, pid, others, stage) ==> Staged(t, pid, others, stage)
  {
    hide Runs.Path;
  }

  lemma AcknowledgeSettles(s: Runs.State, pid: Runs.Pid, ids: set<Uuid>, at: Time, works: bool) returns (t: Runs.State)
    requires Staged(s, pid, ids, Runs.Accepted)
    ensures Settles(s, [Runs.Acknowledge(pid, ids, at, works)], t, pid, ids)
    ensures Mirrors(t, if works then AcknowledgeAll(s.rows, ids, at) else s.rows, s.taken)
  {
    hide Runs.Path;
    var a := Runs.Acknowledge(pid, ids, at, works);
    t := Runs.Perform(s, a);
    Runs.PathOfOne(s, a);
  }

  lemma RescheduleSettles(s: Runs.State, pid: Runs.Pid, id: Uuid, next: Time, works: bool) returns (t: Runs.State)
    requires Staged(s, pid, {id}, Runs.Refused)
    ensures Settles(s, [Runs.Reschedule(pid, id, next, works)], t, pid, {id})
    ensures Mirrors(t, if works then Release(s.rows, id, next) else s.rows, s.taken)
  {
    hide Runs.Path;
    var a := Runs.Reschedule(pid, id, next, works);
    t := Runs.Perform(s, a);
    Runs.PathOfOne(s, a);
  }

  /** An action that only changes the stages of rows that are settled afterwards. */
  lemma SettlesAfter(s: Runs.State, a: Runs.Action, s': Runs.State, steps: seq<Runs.Action>, t: Runs.State,
                     pid: Runs.Pid, ids: set<Uuid>)
    requires pid in s.batches && Runs.Enabled(s, a) && s' == Runs.Perform(s, a) && s'.clock == s.clock
    requires pid in s'.batches && s'.batches == s.batches[pid := s'.batches[pid]]
    requires Runs.Moved(s'.batches[pid], ids, Runs.Settled) == Runs.Moved(s.batches[pid], ids, Runs.Settled)
    requires Settles(s', steps, t, pid, ids)
    ensures Settles(s, [a] + steps, t, pid, ids)
  {
    hide Runs.Path, Runs.Enabled, Runs.Perform, Runs.Moved;
    Runs.PathOfOne(s, a);
    Runs.PathThen(s, [a], s', steps, t);
  }

  /** One send, of a row that may have been part of a failed batch call. */
  lemma SendsOne(s: Runs.State, pid: Runs.Pid, id: Uuid, lands: bool, confirmed: bool) returns (a: Runs.Action, t: Runs.State)
    requires Sendable(s, pid, {id}) && (confirmed ==> lands)
    ensures Runs.Enabled(s, a) && t == Runs.Perform(s, a) && t.clock == s.clock
    ensures Mirrors(t, s.rows, s.taken + if lands then [id] else [])
    ensures pid in t.batches && t.batches == s.batches[pid := t.batches[pid]]
    ensures Runs.Moved(t.batches[pid], {id}, Runs.Settled) == Runs.Moved(s.batches[pid], {id}, Runs.Settled)
    ensures Staged(t, pid, {id}, if confirmed then Runs.Accepted else Runs.Refused)
  {
    a := Runs.SendOne(pid, id, lands, confirmed);
    t := Runs.Perform(s, a);
  }

  /** One batch call that fails as a whole, or is answered. */
  lemma SendsBatch(s: Runs.State, pid: Runs.Pid, chunk: seq<Uuid>, landed: seq<Uuid>, answer: Runs.BatchAnswer)
    returns (a: Runs.Action, t: Runs.State)
    requires 2 <= |chunk| <= Runs.BATCH_LIMIT && Distinct(chunk) && Staged(s, pid, Elements(chunk), Runs.Waiting)
    requires Elements(landed) <= Elements(chunk) && (answer.Answered? ==> answer.confirmed <= Elements(landed))
    ensures Runs.Enabled(s, a) && t == Runs.Perform(s, a) && t.clock == s.clock
    ensures Mirrors(t, s.rows, s.taken + landed)
    ensures pid in t.batches && t.batches == s.batches[pid := t.batches[pid]]
    ensures Runs.Moved(t.batches[pid], Elements(chunk), Runs.Settled) == Runs.Moved(s.batches[pid], Elements(chunk), Runs.Settled)
    ensures answer.CallFailed? ==> Sendable(t, pid, Elements(chunk))
    ensures answer.Answered? ==> Staged(t, pid, answer.confirmed, Runs.Accepted)
                                 && Staged(t, pid, Elements(chunk) - answer.confirmed, Runs.Refused)
  {
    hide Distinct, Elements;
    a := Runs.SendBatch(pid, chunk, landed, answer);
    t := Runs.Perform(s, a);
  }

  /** The claim at the start of a tick. */
  lemma ClaimStarts(s: Runs.State, pid: Runs.Pid, publisher: string, ids: set<Uuid>, at: Time, lease: Time, limit: nat)
    returns (a: Runs.Action, t: Runs.State)
    requires pid !in s.batches && at <= s.clock && lease > 0 && ClaimChoice(s.rows, ids, at, limit)
    ensures Runs.Enabled(s, a) && t == Runs.Perform(s, a) && t.clock == s.clock
    ensures Mirrors(t, ClaimAll(s.rows, ids, publisher, at, lease), s.taken)
    ensures Staged(t, pid, ids, Runs.Waiting) && t.batches == s.batches[pid := t.batches[pid]]
  {
    hide Leased, Claimable;
    a := Runs.Claim(pid, publisher, ids, at, lease);
    t := Runs.Perform(s, a);
  }

  /** A tick as a path: the claim, what it does about the batch, and its end. */
  ghost predicate Ticks(s: Runs.State, steps: seq<Runs.Action>, t: Runs.State) {
    Runs.Path(s, steps, t) && t.batches == s.batches && t.clock == s.clock
  }

  lemma TickEnds(s: Runs.State, claim: Runs.Action, s': Runs.State, steps: seq<Runs.Action>, t: Runs.State,
                 pid: Runs.Pid, ids: set<Uuid>) returns (u: Runs.State)
    requires pid !in s.batches && Runs.Enabled(s, claim) && s' == Runs.Perform(s, claim) && s'.clock == s.clock
    requires pid in s'.batches && s'.batches == s.batches[pid := s'.batches[pid]] && Settles(s', steps, t, pid, ids)
    ensures Ticks(s, [claim] + steps + [Runs.Stop(pid)], u) && Mirrors(u, t.rows, t.taken)
  {
    hide Runs.Path, Runs.Moved;
    u := Runs.Perform(t, Runs.Stop(pid));
    assert u.batches == s.batches;
    Runs.PathOfOne(t, Runs.Stop(pid));
    EndsPath(s, claim, s', steps, t, pid);
  }

  lemma EndsPath(s: Runs.State, claim: Runs.Action, s': Runs.State, steps: seq<Runs.Action>, t: Runs.State, pid: Runs.Pid)
    requires Runs.Enabled(s, claim) && s' == Runs.Perform(s, claim) && Runs.Path(s', steps, t) && pid in t.batches
    ensures Runs.Path(s, [claim] + steps + [Runs.Stop(pid)], Runs.Perform(t, Runs.Stop(pid)))
  {
    hide Runs.Path;
    Runs.PathOfOne(s, claim);
    Runs.PathThen(s, [claim], s', steps, t);
    Runs.PathOfOne(t, Runs.Stop(pid));
    Runs.PathThen(s, [claim] + steps, t, [Runs.Stop(pid)], Runs.Perform(t, Runs.Stop(pid)));
  }

  /** A tick at the end of a run makes a longer run, in which the publisher is idle again. */
  lemma TicksJoinRuns(states: seq<Runs.State>, actions: seq<Runs.Action>, steps: seq<Runs.Action>, t: Runs.State)
    returns (states': seq<Runs.State>, actions': seq<Runs.Action>)
    requires Runs.IsRun(states, actions) && Ticks(states[|actions|], steps, t)
    ensures Runs.IsRun(states', actions') && actions' == actions + steps && states <= states' && states'[|actions'|] == t
    ensures t.batches == states[|actions|].batches
    ensures forall id, attempt: nat :: Runs.CountSends(t.sends, id, attempt) <= 2
    ensures forall id :: id in t.rows && t.rows[id].publishedAt.Some? ==> id in t.taken
  {
    hide Runs.IsRun, Runs.Path, Runs.CountSends;
    RunIsOneLonger(states, actions);
    states', actions' := Runs.PathIsRun(states, actions, steps, t);
    RunIsOneLonger(states', actions');
    Runs.OutboxIsSafe(states', actions', |actions'|);
  }

  lemma RunIsOneLonger(states: seq<Runs.State>, actions: seq<Runs.Action>)
    requires Runs.IsRun(states, actions)
    ensures |states| == |actions| + 1
  {}

  // ---- parts of the above ----

  lemma NothingTaken(log: seq<Uuid>, ids: set<Uuid>, n: nat)
    ensures AtMost(log[|log|..], ids, n)
  {
    assert log[|log|..] == [];
  }

  lemma AtMostIsOf(log: seq<Uuid>, ids: set<Uuid>, n: nat)
    requires AtMost(log, ids, n)
    ensures Elements(log) <= ids
  {}

  lemma SendableIsWorking(s: Runs.State, pid: Runs.Pid, ids: set<Uuid>)
    requires Sendable(s, pid, ids)
    ensures pid in s.batches
  {}

  lemma SendableIsHeld(s: Runs.State, pid: Runs.Pid, id: Uuid)
    requires Sendable(s, pid, {id})
    ensures pid in s.batches && id in s.batches[pid]
  {}

  lemma SomeSendable(s: Runs.State, pid: Runs.Pid, ids: set<Uuid>, id: Uuid)
    requires Sendable(s, pid, ids)
    ensures id in ids ==> Sendable(s, pid, {id})
  {}

  lemma WaitingIsSendable(s: Runs.State, pid: Runs.Pid, ids: set<Uuid>)
    requires Staged(s, pid, ids, Runs.Waiting)
    ensures Sendable(s, pid, ids)
  {}

  lemma StagedIsWorking(s: Runs.State, pid: Runs.Pid, ids: set<Uuid>, stage: Runs.Stage)
    requires Staged(s, pid, ids, stage)
    ensures pid in s.batches
  {}

  lemma SomeStaged(s: Runs.State, pid: Runs.Pid, ids: set<Uuid>, some: set<Uuid>, stage: Runs.Stage)
    requires Staged(s, pid, ids, stage)
    ensures some <= ids ==> Staged(s, pid, some, stage)
  {}

  lemma NoTick(s: Runs.State)
    ensures Ticks(s, [], s)
  {}
}
