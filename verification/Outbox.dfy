/**
 The outbox table and its leases (outboxRepo of internal/adapters/postgres/outbox_inbox_repo.go).
 The functions say what each statement does to one row; the class updates the table in place.
 */
module Outbox {
  import opened Basics

  datatype Row = Row(nextAttempt: Time, lockedBy: Option<string>, lockedUntil: Option<Time>, attempts: nat, publishedAt: Option<Time>)

  /** A row as the commit of its transaction leaves it. */
  function Fresh(at: Time): Row {
    Row(at, None, None, 0, None)
  }

  predicate Claimable(r: Row, now: Time) {
    && r.publishedAt.None? && r.nextAttempt <= now
    && (r.lockedUntil.None? || r.lockedUntil.value < now)
  }

  function Leased(r: Row, publisher: string, now: Time, lease: Time): Row {
    r.(lockedBy := Some(publisher), lockedUntil := Some(now + lease), attempts := r.attempts + 1)
  }

  /** Only unpublished rows change. */
  function Acknowledged(r: Row, now: Time): Row {
    if r.publishedAt.Some? then r else r.(publishedAt := Some(now), lockedUntil := None)
  }

  /** Releases the lease, whoever holds it. */
  function Released(r: Row, next: Time): Row {
    if r.publishedAt.Some? then r else r.(nextAttempt := next, lockedBy := None, lockedUntil := None)
  }

  /**
   When a row can be claimed: committed, from its instant on; leased, when it was due and after the lease; put off,
   from the next attempt on; published, never.
   */
  lemma ClaimableExactly(r: Row, publisher: string, at: Time, lease: Time, next: Time, now: Time)
    ensures Claimable(Fresh(at), now) <==> at <= now
    ensures r.publishedAt.None? ==> (Claimable(Leased(r, publisher, at, lease), now) <==> r.nextAttempt <= now && at + lease < now)
    ensures r.publishedAt.None? ==> (Claimable(Released(r, next), now) <==> next <= now)
    ensures r.publishedAt.Some? ==> !Claimable(r, now) && Released(r, next) == r && Acknowledged(r, at) == r
    ensures !Claimable(Acknowledged(r, at), now)
    ensures Fresh(at).attempts == 0 && Released(r, next).attempts == Acknowledged(r, at).attempts == r.attempts
    ensures Leased(r, publisher, at, lease).attempts == r.attempts + 1 && Leased(r, publisher, at, lease).lockedBy == Some(publisher)
  {}

  type Table = map<Uuid, Row>

  function ClaimAll(rows: Table, ids: set<Uuid>, publisher: string, now: Time, lease: Time): Table {
    map id | id in rows :: if id in ids then Leased(rows[id], publisher, now, lease) else rows[id]
  }

  function AcknowledgeAll(rows: Table, ids: set<Uuid>, now: Time): Table {
    map id | id in rows :: if id in ids then Acknowledged(rows[id], now) else rows[id]
  }

  function Release(rows: Table, id: Uuid, next: Time): Table {
    if id in rows then rows[id := Released(rows[id], next)] else rows
  }

  /** The first limit claimable rows by next attempt, as ORDER BY … LIMIT picks them (ties in any order). */
  ghost predicate ClaimChoice(rows: Table, ids: set<Uuid>, now: Time, limit: nat) {
    && |ids| <= limit
    && (forall id :: id in ids ==> id in rows && Claimable(rows[id], now))
    && (|ids| < limit ==> forall id :: id in rows && Claimable(rows[id], now) ==> id in ids)
    && (forall a, b | a in ids && b in rows && Claimable(rows[b], now) && b !in ids :: rows[a].nextAttempt <= rows[b].nextAttempt)
  }

  function ClaimableIds(rows: Table, now: Time): set<Uuid> {
    set id | id in rows && Claimable(rows[id], now)
  }

  lemma PickedIsChoice(rows: Table, batch: seq<Uuid>, open: set<Uuid>, now: Time, limit: nat)
    requires open <= rows.Keys && open + Elements(batch) == ClaimableIds(rows, now)
    requires |Elements(batch)| <= limit && (open == {} || |Elements(batch)| >= limit)
    requires forall a, b :: a in Elements(batch) && b in open ==> rows[a].nextAttempt <= rows[b].nextAttempt
    ensures ClaimChoice(rows, Elements(batch), now, limit)
  {
    hide Claimable;
    forall id | id in Elements(batch) ensures id in rows && Claimable(rows[id], now) {
      assert id in open + Elements(batch);
    }
    forall id | id in rows && Claimable(rows[id], now) ensures id in open + Elements(batch) {
      assert id in ClaimableIds(rows, now);
    }
  }

  class OutboxTable {
    var rows: Table

    constructor ()
      ensures rows == map[]
    {
      rows := map[];
    }

    method Earliest(candidates: set<Uuid>) returns (best: Uuid)
      requires candidates != {} && candidates <= rows.Keys
      ensures best in candidates && forall id :: id in candidates ==> rows[best].nextAttempt <= rows[id].nextAttempt
    {
      best :| best in candidates;
      var rest := candidates - {best};
      while rest != {}
        invariant rest <= candidates && best in candidates
        invariant forall id :: id in candidates - rest ==> rows[best].nextAttempt <= rows[id].nextAttempt
        decreases |rest|
      {
        var id :| id in rest;
        if rows[id].nextAttempt < rows[best].nextAttempt {
          best := id;
        }
        rest := rest - {id};
      }
    }

    /** The subquery of the claim. */
    method Pick(now: Time, limit: nat) returns (batch: seq<Uuid>)
      ensures Distinct(batch) && ClaimChoice(rows, Elements(batch), now, limit)
    {
      hide Claimable;
      batch := [];
      var open := ClaimableIds(rows, now);
      while open != {} && |batch| < limit
        invariant Distinct(batch) && |batch| <= limit && open !! Elements(batch) && open <= rows.Keys
        invariant open + Elements(batch) == ClaimableIds(rows, now)
        invariant forall a, b :: a in Elements(batch) && b in open ==> rows[a].nextAttempt <= rows[b].nextAttempt
        decreases |open|
      {
        var id := Earliest(open);
        open := open - {id};
        ElementsGrow(batch, id);
        batch := batch + [id];
      }
      DistinctSize(batch);
      PickedIsChoice(rows, batch, open, now, limit);
    }

    method Claim(publisher: string, now: Time, lease: Time, limit: nat) returns (batch: seq<Uuid>)
      modifies this
      ensures Distinct(batch) && ClaimChoice(old(rows), Elements(batch), now, limit)
      ensures rows == ClaimAll(old(rows), Elements(batch), publisher, now, lease)
    {
      hide ClaimChoice, Leased;
      batch := Pick(now, limit);
      rows := ClaimAll(rows, Elements(batch), publisher, now, lease);
    }

    method MarkPublished(id: Uuid, now: Time)
      modifies this
      ensures rows == AcknowledgeAll(old(rows), {id}, now)
    {
      if id in rows && rows[id].publishedAt.None? {
        rows := rows[id := rows[id].(publishedAt := Some(now), lockedUntil := None)];
      }
    }

    method MarkPublishedBatch(ids: seq<Uuid>, now: Time)
      modifies this
      ensures rows == AcknowledgeAll(old(rows), Elements(ids), now)
    {
      for k := 0 to |ids|
        invariant rows == AcknowledgeAll(old(rows), Elements(ids[..k]), now)
      {
        assert ids[..k + 1] == ids[..k] + [ids[k]];
        ElementsGrow(ids[..k], ids[k]);
        MarkPublished(ids[k], now);
      }
      assert ids[..|ids|] == ids;
    }

    method Reschedule(id: Uuid, next: Time)
      modifies this
      ensures rows == Release(old(rows), id, next)
    {
      if id in rows && rows[id].publishedAt.None? {
        rows := rows[id := rows[id].(nextAttempt := next, lockedBy := None, lockedUntil := None)];
      }
    }
  }

  function Elements(ids: seq<Uuid>): set<Uuid> {
    set id | id in ids
  }

  ghost predicate Distinct(ids: seq<Uuid>) {
    forall i, j :: 0 <= i < j < |ids| ==> ids[i] != ids[j]
  }

  lemma ElementsGrow(ids: seq<Uuid>, id: Uuid)
    ensures Elements(ids + [id]) == Elements(ids) + {id}
  {}

  lemma {:induction false} DistinctSize(ids: seq<Uuid>)
    requires Distinct(ids)
    ensures |Elements(ids)| == |ids|
  {
    if ids != [] {
      var front := ids[..|ids| - 1];
      DistinctSize(front);
      ElementsGrow(front, ids[|ids| - 1]);
      assert ids == front + [ids[|ids| - 1]];
    }
  }
}
