/**
 One tick of the outbox publisher (internal/workers/outbox.go) and its batch call
 (internal/adapters/sqs/publisher.go), step by step over the outbox table. What the broker and the
 database answer, and how late it is, is left open wherever they are asked.
 */
module Publishers {
  import opened Basics
  import opened Outbox
  import opened PublisherSteps
  import Runs = OutboxRuns
  import Backoff
  import MoneyText

  const BATCH_LIMIT: nat := Runs.BATCH_LIMIT

  /** A claimed row as the publisher carries it. */
  datatype Record = Record(id: Uuid, attempts: nat)

  function Ids(recs: seq<Record>): (ids: seq<Uuid>)
    ensures |ids| == |recs|
  {
    seq(|recs|, i requires 0 <= i < |recs| => recs[i].id)
  }

  datatype Entry = Entry(name: string, id: Uuid)

  /** The i-th entry of a batch call is called e0, e1, … */
  function EntryName(i: nat): string {
    "e" + MoneyText.Decimal(i)
  }

  lemma EntryNamesDiffer(i: nat, j: nat)
    requires EntryName(i) == EntryName(j)
    ensures i == j
  {
    assert EntryName(i)[1..] == MoneyText.Decimal(i) && EntryName(j)[1..] == MoneyText.Decimal(j);
  }

  ghost predicate Named(entries: seq<Entry>, n: string) {
    exists i :: 0 <= i < |entries| && entries[i].name == n
  }

  ghost predicate NamesDiffer(entries: seq<Entry>) {
    forall i, j :: 0 <= i < j < |entries| ==> entries[i].name != entries[j].name
  }

  datatype BatchReply = BatchReply(successful: seq<string>, failed: seq<string>)

  ghost predicate NoRepeats(names: seq<string>) {
    forall i, j :: 0 <= i < j < |names| ==> names[i] != names[j]
  }

  /** SendMessageBatch answers every entry exactly once, as successful or as failed. */
  ghost predicate AnswersEach(entries: seq<Entry>, r: BatchReply) {
    && (forall i :: 0 <= i < |entries| ==> ((entries[i].name in r.successful) != (entries[i].name in r.failed)))
    && (forall n :: n in r.successful || n in r.failed ==> Named(entries, n))
    && NoRepeats(r.successful)
  }

  /** Every confirmed entry is among what was taken. */
  ghost predicate ConfirmedTaken(entries: seq<Entry>, names: seq<string>, taken: seq<Uuid>) {
    forall i :: 0 <= i < |entries| && entries[i].name in names ==> entries[i].id in taken
  }

  lemma OneMoreAnswer(front: seq<Entry>, e: Entry, r: BatchReply, taken: seq<Uuid>, lands: bool, confirmed: bool)
    requires AnswersEach(front, r) && ConfirmedTaken(front, r.successful, taken) && !Named(front, e.name)
    ensures var taken' := if lands then taken + [e.id] else taken;
            var r' := if lands && confirmed then r.(successful := r.successful + [e.name]) else r.(failed := r.failed + [e.name]);
            AnswersEach(front + [e], r') && ConfirmedTaken(front + [e], r'.successful, taken')
  {
    var all := front + [e];
    forall n | Named(front, n) ensures Named(all, n) {
      var i :| 0 <= i < |front| && front[i].name == n;
      assert all[i].name == n;
    }
    assert all[|front|].name == e.name;
    forall i | 0 <= i < |front| ensures all[i].name != e.name {
      assert all[i] == front[i];
    }
  }

  /** The events queue; log is what it has taken, also when the answer was lost. */
  class Broker {
    var log: seq<Uuid>

    constructor ()
      ensures log == []
    {
      log := [];
    }

    method Send(id: Uuid) returns (ok: bool)
      modifies this
      ensures log == old(log) || log == old(log) + [id]
      ensures ok ==> log == old(log) + [id]
    {
      var lands: bool := *;
      if lands {
        log := log + [id];
        ok := *;
      } else {
        ok := false;
      }
    }

    method SendBatch(entries: seq<Entry>) returns (r: Option<BatchReply>)
      requires NamesDiffer(entries) && Distinct(EntryIds(entries))
      modifies this
      ensures old(log) <= log && AtMost(log[|old(log)|..], Elements(EntryIds(entries)), 1)
      ensures r.Some? ==> AnswersEach(entries, r.value) && ConfirmedTaken(entries, r.value.successful, log[|old(log)|..])
    {
      hide AnswersEach, ConfirmedTaken, AtMost, Distinct;
      var reply, taken := BatchReply([], []), [];
      NothingAnswered();
      for k := 0 to |entries|
        invariant log == old(log) && AtMost(taken, Elements(EntryIds(entries[..k])), 1)
        invariant AnswersEach(entries[..k], reply) && ConfirmedTaken(entries[..k], reply.successful, taken)
      {
        var lands: bool := *;
        var confirmed: bool := *;
        OneMoreAnswer(entries[..k], entries[k], reply, taken, lands, confirmed);
        assert entries[..k + 1] == entries[..k] + [entries[k]];
        NextEntry(entries, k, taken);
        if lands {
          taken := taken + [entries[k].id];
        }
        reply := if lands && confirmed then reply.(successful := reply.successful + [entries[k].name])
                 else reply.(failed := reply.failed + [entries[k].name]);
      }
      log := log + taken;
      assert entries[..|entries|] == entries && log[|old(log)|..] == taken;
      var answered: bool := *;
      r := if answered then Some(reply) else None;
    }
  }

  lemma NothingAnswered()
    ensures AnswersEach([], BatchReply([], [])) && ConfirmedTaken([], [], []) && AtMost([], Elements(EntryIds([])), 1)
  {}

  function EntryIds(entries: seq<Entry>): (ids: seq<Uuid>)
    ensures |ids| == |entries|
  {
    seq(|entries|, i requires 0 <= i < |entries| => entries[i].id)
  }

  /** One more entry, taken or not. */
  lemma NextEntry(entries: seq<Entry>, k: nat, taken: seq<Uuid>)
    requires Distinct(EntryIds(entries)) && k < |entries| && AtMost(taken, Elements(EntryIds(entries[..k])), 1)
    ensures AtMost(taken, Elements(EntryIds(entries[..k + 1])), 1)
    ensures AtMost(taken + [entries[k].id], Elements(EntryIds(entries[..k + 1])), 1)
  {
    var front, id := EntryIds(entries[..k]), entries[k].id;
    assert EntryIds(entries[..k + 1]) == front + [id];
    ElementsGrow(front, id);
    forall j | 0 <= j < k ensures front[j] != id {
      assert EntryIds(entries)[j] != EntryIds(entries)[k];
    }
    AtMostOne(id);
    AtMostApart(taken, Elements(front), [id], {id}, 1);
  }

  /** What a publisher has done about one row it claimed: acknowledged it, or put it off; the statement may have been lost. */
  ghost predicate HandledRow(before: Row, after: Row, acked: bool, now: Time, delay: Time) {
    || after == before
    || exists at :: at >= now && HandledAt(before, after, acked, at, delay)
  }

  predicate HandledAt(before: Row, after: Row, acked: bool, at: Time, delay: Time) {
    after == if acked then Acknowledged(before, at) else Released(before, at + delay)
  }

  type Duration = t: Time | t > 0 witness 1

  /**
   A publisher among others. Its methods carry along, as ghosts, the state of the protocol that table and broker
   are in and the protocol's actions that their steps are.
   */
  class Publisher {
    const table: OutboxTable
    const broker: Broker
    const name: string
    const batchSize: nat
    const lease: Duration
    const base: Int64
    const max: Int64

    /** Non-positive settings fall back to the defaults. */
    constructor (table: OutboxTable, broker: Broker, name: string, batchSize: int, lease: Time, base: Int64, max: Int64)
      ensures this.table == table && this.broker == broker && this.name == name
      ensures this.batchSize > 0 && this.lease > 0 && this.base > 0 && this.max > 0
      ensures this.batchSize == (if batchSize > 0 then batchSize else 50)
      ensures this.lease == (if lease > 0 then lease else 30_000_000_000)
      ensures this.base == (if base > 0 then base else 1_000_000_000)
      ensures this.max == (if max > 0 then max else 60_000_000_000)
    {
      this.table, this.broker, this.name := table, broker, name;
      this.batchSize := if batchSize <= 0 then 50 else batchSize;
      this.lease := if lease <= 0 then 30 * Backoff.SECOND else lease;
      this.base := if base <= 0 then Backoff.SECOND else base;
      this.max := if max <= 0 then 60 * Backoff.SECOND else max;
    }

    /** The entries of a batch call and the way back from their names. */
    method Entries(recs: seq<Record>) returns (entries: seq<Entry>, byName: map<string, Uuid>)
      ensures EntriesFor(recs, entries, byName)
    {
      hide EntryName;
      entries, byName := [], map[];
      for i := 0 to |recs|
        invariant EntriesFor(recs[..i], entries, byName)
      {
        forall k | 0 <= k < i ensures EntryName(k) != EntryName(i) {
          if EntryName(k) == EntryName(i) {
            EntryNamesDiffer(k, i);
          }
        }
        entries := entries + [Entry(EntryName(i), recs[i].id)];
        byName := byName[EntryName(i) := recs[i].id];
      }
      assert recs[..|recs|] == recs;
    }

    /** One batch call: which records the broker confirmed and which it did not, or nothing when the call failed. */
    method PublishBatch(recs: seq<Record>) returns (r: Option<(seq<Uuid>, set<Uuid>)>)
      requires Distinct(Ids(recs))
      modifies broker
      ensures old(broker.log) <= broker.log
      ensures AtMost(broker.log[|old(broker.log)|..], Elements(Ids(recs)), 1)
      ensures |recs| > BATCH_LIMIT ==> r.None?
      ensures r.Some? ==> SplitBy(recs, r.value.0, r.value.1) && Elements(r.value.0) <= Elements(broker.log[|old(broker.log)|..])
    {
      hide EntriesFor, AnswersEach, ConfirmedTaken, SplitBy, NamesDiffer, Distinct, AtMost;
      NothingTaken(broker.log, Elements(Ids(recs)), 1);
      if |recs| == 0 {
        NothingToSplit(recs);
        return Some(([], {}));
      }
      if |recs| > BATCH_LIMIT {
        return None;
      }
      var entries, byName := Entries(recs);
      EntryNamesAreDistinct(recs, entries, byName);
      EntriesKeepIds(recs, entries, byName);
      var reply := broker.SendBatch(entries);
      if reply.None? {
        return None;
      }
      var names := reply.value.successful;
      AnswersAreKnown(recs, entries, byName, reply.value);
      var published: seq<Uuid> := [];
      for k := 0 to |names|
        invariant |published| == k && forall j :: 0 <= j < k ==> published[j] == byName[names[j]]
      {
        published := published + [byName[names[k]]];
      }
      var failed: set<Uuid> := {};
      for k := 0 to |reply.value.failed|
        invariant failed == set j | 0 <= j < k :: byName[reply.value.failed[j]]
      {
        failed := failed + {byName[reply.value.failed[k]]};
      }
      RepliesPartition(recs, entries, byName, reply.value, published, failed);
      ConfirmedAreTaken(recs, entries, byName, reply.value, published, broker.log[|old(broker.log)|..]);
      return Some((published, failed));
    }

    /** Releases the lease and sets the next attempt; when the statement is lost the lease runs out instead. */
    method Reschedule(rec: Record, now: Time, ghost pid: Runs.Pid, ghost s: Runs.State)
      returns (ghost steps: seq<Runs.Action>, ghost t: Runs.State)
      requires rec.id in table.rows && table.rows[rec.id].attempts == rec.attempts
      requires Mirrors(s, table.rows, broker.log) && Staged(s, pid, {rec.id}, Runs.Refused)
      modifies table
      ensures Progress(old(table.rows), table.rows, {}, {rec.id}, now, base, max)
      ensures Settles(s, steps, t, pid, {rec.id}) && Mirrors(t, table.rows, broker.log)
    {
      hide Settles, Staged, Progress;
      var at: Time :| at >= now;
      var delay := Backoff.Compute(base, max, rec.attempts);
      var works: bool := *;
      OnePutOff(table.rows, rec, at, now, base, max, works);
      t := RescheduleSettles(s, pid, rec.id, at + delay, works);
      steps := [Runs.Reschedule(pid, rec.id, at + delay, works)];
      if works {
        table.Reschedule(rec.id, at + delay);
      }
    }

    /** One send, then the acknowledgement or the rescheduling. */
    method PublishOne(rec: Record, now: Time, ghost pid: Runs.Pid, ghost s: Runs.State)
      returns (ghost acked: set<Uuid>, ghost put: set<Uuid>, ghost steps: seq<Runs.Action>, ghost t: Runs.State)
      requires rec.id in table.rows && table.rows[rec.id].attempts == rec.attempts
      requires Mirrors(s, table.rows, broker.log) && Sendable(s, pid, {rec.id})
      modifies table, broker
      ensures broker.log == old(broker.log) || broker.log == old(broker.log) + [rec.id]
      ensures acked + put == {rec.id} && acked <= Elements(broker.log[|old(broker.log)|..])
      ensures AtMost(broker.log[|old(broker.log)|..], {rec.id}, 1)
      ensures Progress(old(table.rows), table.rows, acked, put, now, base, max)
      ensures Settles(s, steps, t, pid, {rec.id}) && Mirrors(t, table.rows, broker.log)
    {
      hide Progress, AtMost, Settles, Staged, Runs.Moved, Runs.Enabled, Runs.Perform;
      var ok := broker.Send(rec.id);
      ghost var lands := broker.log != old(broker.log);
      assert lands ==> broker.log[|old(broker.log)|..] == [rec.id];
      AtMostOne(rec.id);
      ghost var send, sent := SendsOne(s, pid, rec.id, lands, ok);
      SendableIsHeld(s, pid, rec.id);
      if !ok {
        steps, t := Reschedule(rec, now, pid, sent);
        SettlesAfter(s, send, sent, steps, t, pid, {rec.id});
        steps := [send] + steps;
        acked, put := {}, {rec.id};
        return;
      }
      acked, put := {rec.id}, {};
      var at: Time :| at >= now;
      var works: bool := *;
      OneAcknowledged(table.rows, {rec.id}, at, now, base, max, works);
      t := AcknowledgeSettles(sent, pid, {rec.id}, at, works);
      steps := [Runs.Acknowledge(pid, {rec.id}, at, works)];
      SettlesAfter(s, send, sent, steps, t, pid, {rec.id});
      steps := [send] + steps;
      if works {
        table.MarkPublished(rec.id, at);
      }
    }

    /** A batch call that failed as a whole: every record goes out on its own. */
    method PublishSingly(recs: seq<Record>, now: Time, ghost pid: Runs.Pid, ghost s: Runs.State)
      returns (ghost acked: set<Uuid>, ghost put: set<Uuid>, ghost steps: seq<Runs.Action>, ghost t: Runs.State)
      requires Distinct(Ids(recs)) && RecordsOf(table.rows, recs)
      requires Mirrors(s, table.rows, broker.log) && Sendable(s, pid, Elements(Ids(recs)))
      modifies table, broker
      ensures acked + put == Elements(Ids(recs))
      ensures old(broker.log) <= broker.log && acked <= Elements(broker.log[|old(broker.log)|..])
      ensures AtMost(broker.log[|old(broker.log)|..], Elements(Ids(recs)), 1)
      ensures Progress(old(table.rows), table.rows, acked, put, now, base, max)
      ensures Settles(s, steps, t, pid, Elements(Ids(recs))) && Mirrors(t, table.rows, broker.log)
    {
      hide Progress, AtMost, Settles, Sendable;
      acked, put, steps, t := {}, {}, [], s;
      NoProgress(table.rows, now, base, max);
      SendableIsWorking(s, pid, Elements(Ids(recs)));
      NothingSettled(s, pid);
      NothingTaken(broker.log, Elements(Ids(recs[..0])), 1);
      assert Elements(Ids(recs[..0])) == {};
      for k := 0 to |recs|
        invariant acked + put == Elements(Ids(recs[..k])) && RecordsOf(table.rows, recs)
        invariant old(broker.log) <= broker.log && acked <= Elements(broker.log[|old(broker.log)|..])
        invariant AtMost(broker.log[|old(broker.log)|..], Elements(Ids(recs[..k])), 1)
        invariant Progress(old(table.rows), table.rows, acked, put, now, base, max)
        invariant Settles(s, steps, t, pid, Elements(Ids(recs[..k]))) && Mirrors(t, table.rows, broker.log)
      {
        ghost var rows, log := table.rows, broker.log;
        NextRecord(recs, k);
        SomeSendable(s, pid, Elements(Ids(recs)), recs[k].id);
        RecordIds(recs, recs[k].id);
        OthersKeepStage(s, steps, t, pid, Elements(Ids(recs[..k])), {recs[k].id}, Runs.Waiting);
        ghost var a, p, more, u := {}, {}, [], t;
        a, p, more, u := PublishOne(recs[k], now, pid, t);
        ProgressChains(old(table.rows), rows, table.rows, acked, put, a, p, now, base, max);
        ProgressKeepsRecords(rows, table.rows, a, p, now, base, max, recs);
        LaterLog(old(broker.log), log, broker.log, acked, a);
        LaterGrowth(old(broker.log), log, broker.log);
        AtMostApart(log[|old(broker.log)|..], Elements(Ids(recs[..k])), broker.log[|log|..], {recs[k].id}, 1);
        SettlesMore(s, steps, t, more, u, pid, Elements(Ids(recs[..k])), {recs[k].id});
        acked, put, steps, t := acked + a, put + p, steps + more, u;
      }
      assert recs[..|recs|] == recs;
    }

    method Index(recs: seq<Record>) returns (byId: map<Uuid, Record>)
      requires Distinct(Ids(recs))
      ensures Indexed(recs, byId)
    {
      byId := map[];
      for k := 0 to |recs|
        invariant Indexed(recs[..k], byId)
      {
        forall j | 0 <= j < k ensures recs[j].id != recs[k].id {
          assert Ids(recs)[j] != Ids(recs)[k];
        }
        byId := byId[recs[k].id := recs[k]];
      }
      assert recs[..|recs|] == recs;
    }

    /** The failures of a batch call, each rescheduled. */
    method RescheduleAll(recs: seq<Record>, failed: set<Uuid>, now: Time, ghost pid: Runs.Pid, ghost s: Runs.State)
      returns (ghost steps: seq<Runs.Action>, ghost t: Runs.State)
      requires Distinct(Ids(recs)) && RecordsOf(table.rows, recs) && failed <= Elements(Ids(recs))
      requires Mirrors(s, table.rows, broker.log) && Staged(s, pid, failed, Runs.Refused)
      modifies table
      ensures Progress(old(table.rows), table.rows, {}, failed, now, base, max)
      ensures Settles(s, steps, t, pid, failed) && Mirrors(t, table.rows, broker.log)
    {
      hide Progress, RecordsOf, Indexed, Distinct, Settles, Staged;
      StagedIsWorking(s, pid, failed, Runs.Refused);
      var byId := Index(recs);
      var rest := failed;
      ghost var done: set<Uuid>, none: set<Uuid> := {}, {};
      steps, t := [], s;
      NoProgress(table.rows, now, base, max);
      NothingSettled(s, pid);
      while rest != {}
        invariant done + rest == failed && done !! rest && none == {}
        invariant RecordsOf(table.rows, recs)
        invariant Progress(old(table.rows), table.rows, none, done, now, base, max)
        invariant Settles(s, steps, t, pid, done) && Mirrors(t, table.rows, broker.log)
        decreases |rest|
      {
        var id :| id in rest;
        ghost var rows := table.rows;
        IndexedRecord(recs, byId, rows, id);
        SomeStaged(s, pid, failed, {id}, Runs.Refused);
        OthersKeepStage(s, steps, t, pid, done, {id}, Runs.Refused);
        ghost var more, u := Reschedule(byId[id], now, pid, t);
        ProgressChains(old(table.rows), rows, table.rows, none, done, none, {id}, now, base, max);
        ProgressKeepsRecords(rows, table.rows, none, {id}, now, base, max, recs);
        SettlesMore(s, steps, t, more, u, pid, done, {id});
        assert none + none == none;
        rest, done, steps, t := rest - {id}, done + {id}, steps + more, u;
      }
      assert done == failed;
    }

    /**
     Up to ten records with one broker call and one acknowledgement; when the call fails as a whole, one by
     one. Every record is acknowledged or rescheduled, exactly once, and acknowledged only after the broker
     confirmed it; the broker takes nothing but these records, each at most twice. The steps are actions of the protocol.
     */
    method PublishChunk(recs: seq<Record>, now: Time, ghost pid: Runs.Pid, ghost s: Runs.State)
      returns (ghost acked: set<Uuid>, ghost put: set<Uuid>, ghost steps: seq<Runs.Action>, ghost t: Runs.State)
      requires 1 <= |recs| <= BATCH_LIMIT && Distinct(Ids(recs)) && RecordsOf(table.rows, recs)
      requires Mirrors(s, table.rows, broker.log) && Staged(s, pid, Elements(Ids(recs)), Runs.Waiting)
      modifies table, broker
      ensures acked + put == Elements(Ids(recs))
      ensures old(broker.log) <= broker.log && acked <= Elements(broker.log[|old(broker.log)|..])
      ensures AtMost(broker.log[|old(broker.log)|..], Elements(Ids(recs)), 2)
      ensures Progress(old(table.rows), table.rows, acked, put, now, base, max)
      ensures Settles(s, steps, t, pid, Elements(Ids(recs))) && Mirrors(t, table.rows, broker.log)
      ensures Worked(Moment(old(table.rows), old(broker.log), s), Moment(table.rows, broker.log, t), acked, put, steps, pid,
                     Elements(Ids(recs)), now, base, max)
    {
      hide Progress, Distinct, AtMost, Settles, Runs.Moved, Runs.Enabled, Runs.Perform, Staged, Sendable;
      if |recs| == 1 {
        assert Ids(recs) == [recs[0].id];
        WaitingIsSendable(s, pid, Elements(Ids(recs)));
        assert Elements(Ids(recs)) == {recs[0].id};
        acked, put, steps, t := PublishOne(recs[0], now, pid, s);
        OnceIsAtMostTwice(broker.log[|old(broker.log)|..], {recs[0].id});
        return;
      }
      StagedIsWorking(s, pid, Elements(Ids(recs)), Runs.Waiting);
      var reply := PublishBatch(recs);
      ghost var log, chunk := broker.log, Ids(recs);
      ghost var landed := log[|old(broker.log)|..];
      AtMostIsOf(landed, Elements(chunk), 1);
      if reply.None? {
        ghost var send, sent := SendsBatch(s, pid, chunk, landed, Runs.CallFailed);
        acked, put, steps, t := PublishSingly(recs, now, pid, sent);
        SettlesAfter(s, send, sent, steps, t, pid, Elements(chunk));
        steps := [send] + steps;
        LaterLog(old(broker.log), log, broker.log, {}, acked);
        LaterGrowth(old(broker.log), log, broker.log);
        AtMostTwice(landed, broker.log[|log|..], Elements(chunk));
        assert {} + acked == acked;
        return;
      }
      var (published, failed) := reply.value;
      acked, put := Elements(published), failed;
      OnceIsAtMostTwice(landed, Elements(chunk));
      ghost var send, sent := SendsBatch(s, pid, chunk, landed, Runs.Answered(acked));
      assert failed == Elements(chunk) - acked;
      steps, t := RescheduleAll(recs, failed, now, pid, sent);
      if |published| == 0 {
        assert acked == {} && failed == Elements(chunk);
        SettlesAfter(s, send, sent, steps, t, pid, Elements(chunk));
        steps := [send] + steps;
        return;
      }
      ghost var rows := table.rows;
      RecordsAreRows(old(table.rows), rows, recs, failed, now, base, max);
      var at: Time :| at >= now;
      var works: bool := *;
      OneAcknowledged(rows, acked, at, now, base, max, works);
      OthersKeepStage(sent, steps, t, pid, failed, acked, Runs.Accepted);
      ghost var u := AcknowledgeSettles(t, pid, acked, at, works);
      SettlesMore(sent, steps, t, [Runs.Acknowledge(pid, acked, at, works)], u, pid, failed, acked);
      assert failed + acked == Elements(chunk);
      steps, t := steps + [Runs.Acknowledge(pid, acked, at, works)], u;
      SettlesAfter(s, send, sent, steps, t, pid, Elements(chunk));
      steps := [send] + steps;
      if works {
        table.MarkPublishedBatch(published, at);
      }
      ProgressChains(old(table.rows), rows, table.rows, {}, failed, acked, {}, now, base, max);
      assert {} + acked == acked && failed + {} == failed;
    }

    /** The claimed rows as records. */
    method Records(ids: seq<Uuid>) returns (recs: seq<Record>)
      requires forall k :: 0 <= k < |ids| ==> ids[k] in table.rows
      ensures Ids(recs) == ids && RecordsOf(table.rows, recs)
    {
      recs := [];
      for k := 0 to |ids|
        invariant |recs| == k && forall j :: 0 <= j < k ==> recs[j] == Record(ids[j], table.rows[ids[j]].attempts)
      {
        recs := recs + [Record(ids[k], table.rows[ids[k]].attempts)];
      }
    }

    /**
     One tick: claims a batch and publishes it in chunks of at most ten. Unless it is told to stop, the chunks
     are the batch, so every claimed record is acknowledged or rescheduled exactly once, and acknowledged
     only after the broker confirmed it; a stopped tick leaves the rest of its leases to run out. The broker takes
     nothing but the records of the chunks, each at most twice. From any state of the protocol that table and
     broker are in, in which the publisher is idle, the tick is a path of protocol actions to the state they are in then.
     */
    method Tick(now: Time, cancelled: nat -> bool, ghost pid: Runs.Pid, ghost s: Runs.State)
      returns (more: bool, claimed: bool, stopped: bool, ghost batch: seq<Uuid>, ghost chunks: seq<seq<Uuid>>,
               ghost acked: set<Uuid>, ghost put: set<Uuid>, ghost steps: seq<Runs.Action>, ghost t: Runs.State)
      requires Mirrors(s, table.rows, broker.log) && pid !in s.batches && now <= s.clock
      modifies table, broker
      ensures claimed ==> Distinct(batch) && ClaimChoice(old(table.rows), Elements(batch), now, batchSize)
      ensures !claimed ==> batch == [] && table.rows == old(table.rows)
      ensures Joined(chunks) <= batch && (!stopped ==> Joined(chunks) == batch)
      ensures forall c :: 0 <= c < |chunks| ==> 1 <= |chunks[c]| <= BATCH_LIMIT
      ensures acked !! put && acked + put == Elements(Joined(chunks))
      ensures old(broker.log) <= broker.log && acked <= Elements(broker.log[|old(broker.log)|..])
      ensures AtMost(broker.log[|old(broker.log)|..], Elements(Joined(chunks)), 2)
      ensures Progress(ClaimAll(old(table.rows), Elements(batch), name, now, lease), table.rows, acked, put, now, base, max)
      ensures more <==> claimed && !stopped && |batch| == batchSize
      ensures Ticks(s, steps, t) && Mirrors(t, table.rows, broker.log)
    {
      hide Progress, ClaimChoice, Leased, Distinct, AtMost, Worked, Ticks, Runs.Enabled, Runs.Perform, Staged, RecordsOf;
      claimed := *;
      batch, chunks, acked, put, more, stopped := [], [], {}, {}, false, false;
      if !claimed {
        NothingTaken(broker.log, Elements([]), 2);
        NothingClaimed(table.rows, name, now, lease);
        NoProgress(table.rows, now, base, max);
        steps, t := [], s;
        NoTick(s);
        return;
      }
      var ids := table.Claim(name, now, lease, batchSize);
      batch := ids;
      ghost var claim, s' := ClaimStarts(s, pid, name, Elements(ids), now, lease, batchSize);
      ghost var leased := Moment(table.rows, broker.log, s');
      ClaimedAreRows(old(table.rows), ids, name, now, lease, batchSize);
      var recs := Records(ids);
      var start := 0;
      ghost var done: seq<Runs.Action>, here := [], leased;
      StagedIsWorking(s', pid, Elements(ids), Runs.Waiting);
      NothingWorked(leased, pid, now, base, max);
      assert Elements(ids[..0]) == {};
      while start < |recs|
        invariant 0 <= start <= |recs| && Joined(chunks) == ids[..start]
        invariant forall c :: 0 <= c < |chunks| ==> 1 <= |chunks[c]| <= BATCH_LIMIT
        invariant RecordsOf(table.rows, recs) && here.rows == table.rows && here.log == broker.log
        invariant Worked(leased, here, acked, put, done, pid, Elements(ids[..start]), now, base, max)
        decreases |recs| - start
      {
        if cancelled(start) {
          stopped := true;
          t := WorkedEnds(s, claim, leased, here, acked, put, done, pid, Elements(ids[..start]), now, base, max);
          steps := [claim] + done + [Runs.Stop(pid)];
          return;
        }
        var end := start + BATCH_LIMIT;
        if end > |recs| {
          end := |recs|;
        }
        ChunkOf(recs, ids, start, end);
        assert Elements(ids[start..end]) <= Elements(ids);
        WorkedKeepsRest(leased, here, acked, put, done, pid, Elements(ids[..start]), now, base, max, Elements(ids), Elements(ids[start..end]));
        IsMirrored(leased, here, acked, put, done, pid, Elements(ids[..start]), now, base, max);
        SomeRecords(table.rows, recs, start, end);
        ghost var a, p, acts, t' := PublishChunk(recs[start..end], now, pid, here.state);
        ghost var next := Moment(table.rows, broker.log, t');
        WorkedKeepsRecords(here, next, a, p, acts, pid, Elements(ids[start..end]), now, base, max, recs);
        WorkedMore(leased, here, next, acked, put, done, Elements(ids[..start]), a, p, acts, Elements(ids[start..end]), pid, now, base, max);
        acked, put, done, here := acked + a, put + p, done + acts, next;
        JoinedMore(chunks, ids[start..end]);
        chunks := chunks + [ids[start..end]];
        assert ids[..end] == ids[..start] + ids[start..end];
        start := end;
      }
      assert ids[..|ids|] == ids;
      more := |ids| == batchSize;
      t := WorkedEnds(s, claim, leased, here, acked, put, done, pid, Elements(ids), now, base, max);
      steps := [claim] + done + [Runs.Stop(pid)];
    }
  }

  lemma SomeRecords(rows: Table, recs: seq<Record>, start: nat, end: nat)
    requires RecordsOf(rows, recs) && start <= end <= |recs|
    ensures RecordsOf(rows, recs[start..end])
  {}

  lemma IsMirrored(a: Moment, b: Moment, acked: set<Uuid>, put: set<Uuid>, steps: seq<Runs.Action>, pid: Runs.Pid,
                   ids: set<Uuid>, now: Time, base: Int64, max: Int64)
    requires Worked(a, b, acked, put, steps, pid, ids, now, base, max)
    ensures Mirrors(b.state, b.rows, b.log)
  {}

  lemma NothingClaimed(rows: Table, name: string, now: Time, lease: Time)
    ensures ClaimAll(rows, Elements([]), name, now, lease) == rows
  {}

  function Joined(chunks: seq<seq<Uuid>>): seq<Uuid> {
    if chunks == [] then [] else Joined(chunks[..|chunks| - 1]) + chunks[|chunks| - 1]
  }

  lemma JoinedMore(chunks: seq<seq<Uuid>>, chunk: seq<Uuid>)
    ensures Joined(chunks + [chunk]) == Joined(chunks) + chunk
  {
    assert (chunks + [chunk])[..|chunks|] == chunks;
  }

  lemma NextRecord(recs: seq<Record>, k: nat)
    requires Distinct(Ids(recs)) && k < |recs|
    ensures Elements(Ids(recs[..k + 1])) == Elements(Ids(recs[..k])) + {recs[k].id}
    ensures recs[k].id !in Elements(Ids(recs[..k]))
  {
    assert Ids(recs[..k + 1]) == Ids(recs[..k]) + [recs[k].id];
    ElementsGrow(Ids(recs[..k]), recs[k].id);
    forall j | 0 <= j < k ensures recs[j].id != recs[k].id {
      assert Ids(recs)[j] != Ids(recs)[k];
    }
  }

  /** What was taken stays taken. */
  lemma LaterLog(first: seq<Uuid>, mid: seq<Uuid>, last: seq<Uuid>, a: set<Uuid>, b: set<Uuid>)
    requires first <= mid <= last
    requires a <= Elements(mid[|first|..]) && b <= Elements(last[|mid|..])
    ensures a + b <= Elements(last[|first|..])
  {
    assert last[|first|..] == mid[|first|..] + last[|mid|..];
  }

  ghost predicate Indexed(recs: seq<Record>, byId: map<Uuid, Record>) {
    forall k :: 0 <= k < |recs| ==> recs[k].id in byId && byId[recs[k].id] == recs[k]
  }

  lemma IndexedRecord(recs: seq<Record>, byId: map<Uuid, Record>, rows: Table, id: Uuid)
    requires Indexed(recs, byId) && RecordsOf(rows, recs) && id in Elements(Ids(recs))
    ensures id in byId && byId[id].id == id && id in rows && rows[id].attempts == byId[id].attempts
  {
    RecordIds(recs, id);
    var k :| 0 <= k < |recs| && recs[k].id == id;
  }

  lemma RecordsAreRows(before: Table, rows: Table, recs: seq<Record>, failed: set<Uuid>, now: Time, base: Int64,
                       max: Int64)
    requires Progress(before, rows, {}, failed, now, base, max) && RecordsOf(before, recs)
    ensures Elements(Ids(recs)) <= rows.Keys
  {
    hide HandledRow;
    forall id | id in Elements(Ids(recs)) ensures id in rows {
      RecordIds(recs, id);
    }
  }

  lemma ClaimedAreRows(before: Table, claimed: seq<Uuid>, name: string, now: Time, lease: Time, limit: nat)
    requires ClaimChoice(before, Elements(claimed), now, limit)
    ensures forall k :: 0 <= k < |claimed| ==> claimed[k] in ClaimAll(before, Elements(claimed), name, now, lease)
  {
    forall k | 0 <= k < |claimed| ensures claimed[k] in before {
      assert claimed[k] in Elements(claimed);
    }
  }

  lemma ProgressApart(before: Table, after: Table, acked: set<Uuid>, put: set<Uuid>, now: Time, base: Int64, max: Int64)
    requires Progress(before, after, acked, put, now, base, max)
    ensures acked !! put
  {}

  /** A chunk is new: none of it was in the chunks before. */
  lemma ChunkOf(recs: seq<Record>, claimed: seq<Uuid>, start: nat, end: nat)
    requires Ids(recs) == claimed && Distinct(claimed) && start < end <= |recs|
    ensures Ids(recs[start..end]) == claimed[start..end] && Distinct(claimed[start..end])
    ensures Elements(claimed[..start]) !! Elements(claimed[start..end])
    ensures Elements(claimed[..end]) == Elements(claimed[..start]) + Elements(claimed[start..end])
  {
    assert claimed[..end] == claimed[..start] + claimed[start..end];
    assert forall i, j :: 0 <= i < start && 0 <= j < end - start ==> claimed[..start][i] != claimed[start..end][j];
    assert forall x :: x in Elements(claimed[..start]) ==> x !in Elements(claimed[start..end]);
  }

  // ---- what a tick does to the table ----

  /** The records are rows of the table, with their current claim counters. */
  ghost predicate RecordsOf(rows: Table, recs: seq<Record>) {
    forall k :: 0 <= k < |recs| ==> recs[k].id in rows && rows[recs[k].id].attempts == recs[k].attempts
  }

  /** Acknowledgement of acked and putting off of put were attempted once each; nothing else was touched. */
  ghost predicate Progress(before: Table, after: Table, acked: set<Uuid>, put: set<Uuid>, now: Time, base: Int64,
                           max: Int64) {
    && before.Keys == after.Keys
    && acked !! put && acked + put <= before.Keys
    && forall id :: id in before ==>
                      if id in acked + put then
                        HandledRow(before[id], after[id], id in acked, now, Backoff.Delay(base, max, before[id].attempts))
                      else after[id] == before[id]
  }

  lemma NoProgress(rows: Table, now: Time, base: Int64, max: Int64)
    ensures Progress(rows, rows, {}, {}, now, base, max)
  {}

  lemma HandledKeepsAttempts(before: Row, after: Row, acked: bool, now: Time, delay: Time)
    requires HandledRow(before, after, acked, now, delay)
    ensures after.attempts == before.attempts
  {}

  lemma ProgressChains(a: Table, b: Table, c: Table, acked1: set<Uuid>, put1: set<Uuid>, acked2: set<Uuid>,
                       put2: set<Uuid>,
                       now: Time, base: Int64, max: Int64)
    requires Progress(a, b, acked1, put1, now, base, max) && Progress(b, c, acked2, put2, now, base, max)
    requires acked1 + put1 !! acked2 + put2
    ensures Progress(a, c, acked1 + acked2, put1 + put2, now, base, max)
  {
    hide HandledRow;
  }

  lemma ProgressKeepsRecords(before: Table, after: Table, acked: set<Uuid>, put: set<Uuid>, now: Time, base: Int64,
                             max: Int64, recs: seq<Record>)
    requires Progress(before, after, acked, put, now, base, max) && RecordsOf(before, recs)
    ensures RecordsOf(after, recs)
  {
    hide HandledRow;
    forall k | 0 <= k < |recs| ensures recs[k].id in after && after[recs[k].id].attempts == recs[k].attempts {
      var id := recs[k].id;
      if id in acked + put {
        HandledKeepsAttempts(before[id], after[id], id in acked, now, Backoff.Delay(base, max, before[id].attempts));
      }
    }
  }

  lemma OneAcknowledged(rows: Table, ids: set<Uuid>, at: Time, now: Time, base: Int64, max: Int64, works: bool)
    requires ids <= rows.Keys && at >= now
    ensures Progress(rows, if works then AcknowledgeAll(rows, ids, at) else rows, ids, {}, now, base, max)
  {
    hide Backoff.Delay;
    var after := if works then AcknowledgeAll(rows, ids, at) else rows;
    forall id | id in ids ensures HandledRow(rows[id], after[id], true, now, Backoff.Delay(base, max, rows[id].attempts)) {
      assert works ==> HandledAt(rows[id], after[id], true, at, Backoff.Delay(base, max, rows[id].attempts));
    }
  }

  lemma OnePutOff(rows: Table, rec: Record, at: Time, now: Time, base: Int64, max: Int64, works: bool)
    requires rec.id in rows && rows[rec.id].attempts == rec.attempts && at >= now
    ensures var after := if works then Release(rows, rec.id, at + Backoff.Delay(base, max, rec.attempts)) else rows;
            Progress(rows, after, {}, {rec.id}, now, base, max)
  {
    hide Backoff.Delay;
    var delay := Backoff.Delay(base, max, rec.attempts);
    var after := if works then Release(rows, rec.id, at + delay) else rows;
    assert works ==> HandledAt(rows[rec.id], after[rec.id], false, at, delay);
    assert HandledRow(rows[rec.id], after[rec.id], false, now, delay);
  }

  /** Where table and broker stood, and the state of the protocol they were in. */
  datatype Moment = Moment(rows: Table, log: seq<Uuid>, state: Runs.State)

  /** Everything about these rows from one moment to another: each is acknowledged or put off, and taken at most twice. */
  ghost predicate Worked(a: Moment, b: Moment, acked: set<Uuid>, put: set<Uuid>, steps: seq<Runs.Action>, pid: Runs.Pid,
                         ids: set<Uuid>, now: Time, base: Int64, max: Int64) {
    && acked + put == ids
    && a.log <= b.log && acked <= Elements(b.log[|a.log|..]) && AtMost(b.log[|a.log|..], ids, 2)
    && Progress(a.rows, b.rows, acked, put, now, base, max)
    && Settles(a.state, steps, b.state, pid, ids) && Mirrors(b.state, b.rows, b.log)
  }

  lemma NothingWorked(a: Moment, pid: Runs.Pid, now: Time, base: Int64, max: Int64)
    requires pid in a.state.batches && Mirrors(a.state, a.rows, a.log)
    ensures Worked(a, a, {}, {}, [], pid, {}, now, base, max)
  {
    hide AtMost, Progress, Settles;
    NothingTaken(a.log, {}, 2);
    NoProgress(a.rows, now, base, max);
    NothingSettled(a.state, pid);
  }

  lemma WorkedMore(a: Moment, b: Moment, c: Moment, acked: set<Uuid>, put: set<Uuid>, steps: seq<Runs.Action>, ids: set<Uuid>,
                   acked': set<Uuid>, put': set<Uuid>, steps': seq<Runs.Action>, ids': set<Uuid>,
                   pid: Runs.Pid, now: Time, base: Int64, max: Int64)
    requires Worked(a, b, acked, put, steps, pid, ids, now, base, max) && Worked(b, c, acked', put', steps', pid, ids', now, base, max)
    requires ids !! ids'
    ensures Worked(a, c, acked + acked', put + put', steps + steps', pid, ids + ids', now, base, max)
  {
    hide AtMost, Progress, Settles, Elements;
    LaterLog(a.log, b.log, c.log, acked, acked');
    LaterGrowth(a.log, b.log, c.log);
    AtMostApart(b.log[|a.log|..], ids, c.log[|b.log|..], ids', 2);
    ProgressChains(a.rows, b.rows, c.rows, acked, put, acked', put', now, base, max);
    SettlesMore(a.state, steps, b.state, steps', c.state, pid, ids, ids');
  }

  lemma WorkedKeepsRecords(a: Moment, b: Moment, acked: set<Uuid>, put: set<Uuid>, steps: seq<Runs.Action>, pid: Runs.Pid,
                           ids: set<Uuid>, now: Time, base: Int64, max: Int64, recs: seq<Record>)
    requires Worked(a, b, acked, put, steps, pid, ids, now, base, max) && RecordsOf(a.rows, recs)
    ensures RecordsOf(b.rows, recs)
  {
    hide AtMost, Progress, Settles, RecordsOf;
    ProgressKeepsRecords(a.rows, b.rows, acked, put, now, base, max, recs);
  }

  /** What is left of the batch is still to be sent. */
  lemma WorkedKeepsRest(a: Moment, b: Moment, acked: set<Uuid>, put: set<Uuid>, steps: seq<Runs.Action>, pid: Runs.Pid,
                        ids: set<Uuid>, now: Time, base: Int64, max: Int64, all: set<Uuid>, rest: set<Uuid>)
    requires Worked(a, b, acked, put, steps, pid, ids, now, base, max)
    requires Staged(a.state, pid, all, Runs.Waiting) && rest <= all && ids !! rest
    ensures Staged(b.state, pid, rest, Runs.Waiting)
  {
    hide AtMost, Progress, Settles, Staged;
    SomeStaged(a.state, pid, all, rest, Runs.Waiting);
    OthersKeepStage(a.state, steps, b.state, pid, ids, rest, Runs.Waiting);
  }

  /** What a tick that claimed amounts to, when it ends. */
  lemma WorkedEnds(s: Runs.State, claim: Runs.Action, a: Moment, b: Moment, acked: set<Uuid>, put: set<Uuid>,
                   steps: seq<Runs.Action>, pid: Runs.Pid, ids: set<Uuid>, now: Time, base: Int64, max: Int64)
    returns (t: Runs.State)
    requires Worked(a, b, acked, put, steps, pid, ids, now, base, max)
    requires pid !in s.batches && Runs.Enabled(s, claim) && a.state == Runs.Perform(s, claim) && a.state.clock == s.clock
    requires pid in a.state.batches && a.state.batches == s.batches[pid := a.state.batches[pid]]
    ensures acked !! put && acked + put == ids
    ensures a.log <= b.log && acked <= Elements(b.log[|a.log|..]) && AtMost(b.log[|a.log|..], ids, 2)
    ensures Progress(a.rows, b.rows, acked, put, now, base, max)
    ensures Ticks(s, [claim] + steps + [Runs.Stop(pid)], t) && Mirrors(t, b.rows, b.log)
  {
    hide AtMost, Settles, Runs.Enabled, Runs.Perform, Ticks;
    ProgressApart(a.rows, b.rows, acked, put, now, base, max);
    t := TickEnds(s, claim, a.state, steps, b.state, pid, ids);
  }

  // ---- from names back to events ----

  ghost predicate EntriesFor(recs: seq<Record>, entries: seq<Entry>, byName: map<string, Uuid>) {
    && |entries| == |recs|
    && (forall k :: 0 <= k < |recs| ==> entries[k] == Entry(EntryName(k), recs[k].id))
    && (forall k :: 0 <= k < |recs| ==> EntryName(k) in byName && byName[EntryName(k)] == recs[k].id)
  }

  lemma EntryNamesAreDistinct(recs: seq<Record>, entries: seq<Entry>, byName: map<string, Uuid>)
    requires EntriesFor(recs, entries, byName)
    ensures NamesDiffer(entries)
  {
    hide EntryName;
    forall i, j | 0 <= i < j < |entries| ensures entries[i].name != entries[j].name {
      if entries[i].name == entries[j].name {
        EntryNamesDiffer(i, j);
      }
    }
  }

  lemma EntriesKeepIds(recs: seq<Record>, entries: seq<Entry>, byName: map<string, Uuid>)
    requires EntriesFor(recs, entries, byName)
    ensures EntryIds(entries) == Ids(recs)
  {}

  lemma NameIsOf(recs: seq<Record>, entries: seq<Entry>, byName: map<string, Uuid>, n: string) returns (k: nat)
    requires EntriesFor(recs, entries, byName) && Named(entries, n)
    ensures k < |recs| && k < |entries| && n == EntryName(k) == entries[k].name && n in byName && byName[n] == recs[k].id == entries[k].id
  {
    hide EntryName;
    k :| 0 <= k < |entries| && entries[k].name == n;
  }

  lemma AnswersAreKnown(recs: seq<Record>, entries: seq<Entry>, byName: map<string, Uuid>, r: BatchReply)
    requires EntriesFor(recs, entries, byName) && AnswersEach(entries, r)
    ensures forall j :: 0 <= j < |r.successful| ==> r.successful[j] in byName
    ensures forall j :: 0 <= j < |r.failed| ==> r.failed[j] in byName
  {
    hide EntriesFor, Named;
    forall j | 0 <= j < |r.successful| ensures r.successful[j] in byName {
      assert r.successful[j] in r.successful;
      var k := NameIsOf(recs, entries, byName, r.successful[j]);
    }
    forall j | 0 <= j < |r.failed| ensures r.failed[j] in byName {
      assert r.failed[j] in r.failed;
      var k := NameIsOf(recs, entries, byName, r.failed[j]);
    }
  }

  /** The records are split in two: those published, each once, and those that failed. */
  ghost predicate SplitBy(recs: seq<Record>, published: seq<Uuid>, failed: set<Uuid>) {
    && Distinct(published) && Elements(published) !! failed
    && Elements(published) + failed == Elements(Ids(recs))
  }

  lemma NothingToSplit(recs: seq<Record>)
    requires recs == []
    ensures SplitBy(recs, [], {})
  {}

  lemma SameRecord(recs: seq<Record>, i: nat, j: nat)
    requires Distinct(Ids(recs)) && i < |recs| && j < |recs| && recs[i].id == recs[j].id
    ensures i == j
  {
    assert Ids(recs)[i] == Ids(recs)[j];
  }

  lemma RecordIds(recs: seq<Record>, id: Uuid)
    ensures id in Elements(Ids(recs)) <==> exists k :: 0 <= k < |recs| && recs[k].id == id
  {
    if id in Elements(Ids(recs)) {
      var k :| 0 <= k < |recs| && Ids(recs)[k] == id;
      assert recs[k].id == id;
    }
    if exists k :: 0 <= k < |recs| && recs[k].id == id {
      var k :| 0 <= k < |recs| && recs[k].id == id;
      assert Ids(recs)[k] == id;
    }
  }

  /** Mapping names back to events splits the records as the broker split the entries. */
  lemma RepliesPartition(recs: seq<Record>, entries: seq<Entry>, byName: map<string, Uuid>, r: BatchReply,
                         published: seq<Uuid>, failed: set<Uuid>)
    requires Distinct(Ids(recs)) && EntriesFor(recs, entries, byName) && AnswersEach(entries, r)
    requires forall j :: 0 <= j < |r.successful| ==> r.successful[j] in byName
    requires forall j :: 0 <= j < |r.failed| ==> r.failed[j] in byName
    requires |published| == |r.successful| && forall j :: 0 <= j < |published| ==> published[j] == byName[r.successful[j]]
    requires failed == set j | 0 <= j < |r.failed| :: byName[r.failed[j]]
    ensures SplitBy(recs, published, failed)
  {
    hide EntryName, Ids, EntriesFor, Named;
    forall i, j | 0 <= i < j < |published| ensures published[i] != published[j] {
      assert r.successful[i] in r.successful && r.successful[j] in r.successful;
      var a := NameIsOf(recs, entries, byName, r.successful[i]);
      var b := NameIsOf(recs, entries, byName, r.successful[j]);
      if published[i] == published[j] {
        SameRecord(recs, a, b);
      }
    }
    forall i, j | 0 <= i < |published| && 0 <= j < |r.failed| ensures published[i] != byName[r.failed[j]] {
      assert r.successful[i] in r.successful && r.failed[j] in r.failed;
      var a := NameIsOf(recs, entries, byName, r.successful[i]);
      var b := NameIsOf(recs, entries, byName, r.failed[j]);
      assert entries[a].name in r.successful && entries[b].name in r.failed;
      if published[i] == byName[r.failed[j]] {
        SameRecord(recs, a, b);
      }
    }
    forall id ensures id in Elements(published) + failed <==> id in Elements(Ids(recs)) {
      RecordIds(recs, id);
      SplitCovers(recs, entries, byName, r, published, failed, id);
    }
  }

  lemma SplitCovers(recs: seq<Record>, entries: seq<Entry>, byName: map<string, Uuid>, r: BatchReply,
                    published: seq<Uuid>, failed: set<Uuid>, id: Uuid)
    requires EntriesFor(recs, entries, byName) && AnswersEach(entries, r)
    requires forall j :: 0 <= j < |r.successful| ==> r.successful[j] in byName
    requires forall j :: 0 <= j < |r.failed| ==> r.failed[j] in byName
    requires |published| == |r.successful| && forall j :: 0 <= j < |published| ==> published[j] == byName[r.successful[j]]
    requires failed == set j | 0 <= j < |r.failed| :: byName[r.failed[j]]
    ensures id in Elements(published) + failed <==> exists k :: 0 <= k < |recs| && recs[k].id == id
  {
    hide EntryName, Named;
    if id in Elements(published) {
      var j :| 0 <= j < |published| && published[j] == id;
      assert r.successful[j] in r.successful;
      var k := NameIsOf(recs, entries, byName, r.successful[j]);
    } else if id in failed {
      var j :| 0 <= j < |r.failed| && byName[r.failed[j]] == id;
      assert r.failed[j] in r.failed;
      var k := NameIsOf(recs, entries, byName, r.failed[j]);
    }
    if exists k :: 0 <= k < |recs| && recs[k].id == id {
      var k :| 0 <= k < |recs| && recs[k].id == id;
      assert entries[k] == Entry(EntryName(k), id) && byName[entries[k].name] == id;
      if entries[k].name in r.successful {
        var j :| 0 <= j < |r.successful| && r.successful[j] == entries[k].name;
        assert published[j] == id;
      } else {
        assert entries[k].name in r.failed;
        var j :| 0 <= j < |r.failed| && r.failed[j] == entries[k].name;
        assert byName[r.failed[j]] == id;
      }
    }
  }

  lemma ConfirmedAreTaken(recs: seq<Record>, entries: seq<Entry>, byName: map<string, Uuid>, r: BatchReply,
                          published: seq<Uuid>, taken: seq<Uuid>)
    requires EntriesFor(recs, entries, byName) && AnswersEach(entries, r) && ConfirmedTaken(entries, r.successful, taken)
    requires forall j :: 0 <= j < |r.successful| ==> r.successful[j] in byName
    requires |published| == |r.successful| && forall j :: 0 <= j < |published| ==> published[j] == byName[r.successful[j]]
    ensures Elements(published) <= Elements(taken)
  {
    hide EntriesFor, Named, EntryName;
    forall id | id in Elements(published) ensures id in Elements(taken) {
      var j :| 0 <= j < |published| && published[j] == id;
      assert r.successful[j] in r.successful;
      var k := NameIsOf(recs, entries, byName, r.successful[j]);
      assert entries[k].name in r.successful;
      assert entries[k].id in taken;
    }
  }
}
