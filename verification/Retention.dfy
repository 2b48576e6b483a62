/**
 Which rows journal maintenance closes, deletes and keeps, told from the rows
 themselves: their status, lease and finish time, and how many rows of their kind
 finished after them.
 */
module Retention {
  import opened Results
  import opened Sets
  import opened Ordering
  import opened Journal
  import opened JournalSafety
  import opened Maintenance

  /** The row is finished, or somebody may still be working under its lease. */
  predicate Live(c: Clock, row: Row, now: int) {
    || row.status.Done? || row.status.Dead?
    || ((row.status.Running? || row.status.Stuck?) && row.lease.Some? && c.julian(now) < c.julian(row.lease.value))
  }

  predicate FinishedAfter(y: Row, yID: int, x: Row, xID: int) {
    || (y.finished == x.finished && xID < yID)
    || (y.finished.Some? && (x.finished.None? || x.finished.value < y.finished.value))
  }

  /** The rows of the same kind below the confirmed offset that finished later. */
  function Overtakers(t: Tables, id: int): set<int>
    requires id in t.rows
  {
    set y | y in t.rows && t.rows[y].status == t.rows[id].status && y < t.confirmed
            && FinishedAfter(t.rows[y], y, t.rows[id], id)
  }

  /** Too old, or followed by as many rows of its kind as may stay. */
  predicate Overdue(t: Tables, id: int, limit: nat, cutoff: int)
    requires id in t.rows
  {
    || (t.rows[id].finished.Some? && t.rows[id].finished.value < cutoff)
    || limit <= |Overtakers(t, id)|
  }

  lemma OvertakersAreAhead(t: Tables, status: Status, id: int)
    requires id in Settled(t, status)
    ensures Ahead(ByFinished(t, true), Settled(t, status), id) == Overtakers(t, id)
  {
  }

  lemma PrunableIsOverdue(t: Tables, status: Status, limit: nat, cutoff: int, id: int)
    ensures id in PrunableIds(t, status, limit, cutoff) <==>
      id in t.rows && t.rows[id].status == status && id < t.confirmed && Overdue(t, id, limit, cutoff)
  {
    if id in Settled(t, status) {
      OvertakersAreAhead(t, status, id);
      hide Overtakers, Ahead;
    }
  }

  // ---- One statement ----

  /**
   One deletion removes overdue rows of one kind below the confirmed offset and nothing else: all of
   them if there are at most 256, and otherwise the 256 that finished first.
   */
  lemma DeletionLaw(t: Tables, status: Status, limit: nat, cutoff: int)
    ensures var u := PruneTerminal(t, status, limit, cutoff);
      && u.next == t.next && u.confirmed == t.confirmed && u.rows.Keys <= t.rows.Keys
      && (forall id | id in u.rows :: u.rows[id] == t.rows[id])
      && (forall id | id in t.rows && id !in u.rows ::
            t.rows[id].status == status && id < t.confirmed && Overdue(t, id, limit, cutoff))
      && (forall id | id in u.rows && t.rows[id].status == status && id < t.confirmed && Overdue(t, id, limit, cutoff) ::
            && |t.rows.Keys - u.rows.Keys| == 256
            && forall gone | gone in t.rows && gone !in u.rows :: FinishedAfter(t.rows[id], id, t.rows[gone], gone))
  {
    var u := PruneTerminal(t, status, limit, cutoff);
    var due, batch := PrunableIds(t, status, limit, cutoff), PruneBatch(t, status, limit, cutoff);
    assert t.rows.Keys - u.rows.Keys == batch;
    LeadingSelects(ByFinished(t, false), due, PRUNE_BATCH_SIZE);
    forall id | id in t.rows && id !in u.rows
      ensures t.rows[id].status == status && id < t.confirmed && Overdue(t, id, limit, cutoff)
    {
      PrunableIsOverdue(t, status, limit, cutoff, id);
    }
    forall id | id in u.rows && t.rows[id].status == status && id < t.confirmed && Overdue(t, id, limit, cutoff)
      ensures |batch| == 256
      ensures forall gone | gone in batch :: FinishedAfter(t.rows[id], id, t.rows[gone], gone)
    {
      PrunableIsOverdue(t, status, limit, cutoff, id);
      assert id in due - batch;
      if |batch| == |due| { SubsetSize(batch, due); }
      forall gone | gone in batch ensures FinishedAfter(t.rows[id], id, t.rows[gone], gone) {
        assert Before(ByFinished(t, false), gone, id);
      }
    }
  }

  /**
   One reconciliation closes rows below the confirmed offset that are not live and touches nothing else:
   all of them if there are at most 256, and otherwise the 256 with the smallest ids.
   */
  lemma ClosingLaw(c: Clock, t: Tables, now: int)
    ensures var u := Reconcile(c, t, now);
            var changed := set id | id in t.rows && id in u.rows && u.rows[id] != t.rows[id];
      && u.next == t.next && u.confirmed == t.confirmed && u.rows.Keys == t.rows.Keys
      && (forall id | id in changed :: id < t.confirmed && !Live(c, t.rows[id], now)
            && u.rows[id] == Row(Dead, t.rows[id].attempts, t.rows[id].failures, "", None, Some(c.text(now))))
      && (forall id | id in t.rows && id < t.confirmed && !Live(c, t.rows[id], now) && id !in changed ::
            |changed| == 256 && forall closed | closed in changed :: closed < id)
  {
    var u := Reconcile(c, t, now);
    var due := AbandonableIds(c, t, now);
    var batch := Leading(ById(t), due, PRUNE_BATCH_SIZE);
    LeadingSelects(ById(t), due, PRUNE_BATCH_SIZE);
    forall id | id in t.rows ensures id in due <==> id < t.confirmed && !Live(c, t.rows[id], now) {
      assert id in due <==> id < t.confirmed && Abandonable(c, t.rows[id], now);
    }
    var changed := set id | id in t.rows && id in u.rows && u.rows[id] != t.rows[id];
    assert changed == batch;
    forall id | id in due && id !in batch
      ensures |batch| == 256 && forall closed | closed in batch :: closed < id
    {
      if |batch| == |due| { SubsetSize(batch, due); }
      forall closed | closed in batch ensures closed < id {
        assert Before(ById(t), closed, id);
      }
    }
  }

  // ---- The whole journal ----

  /** Every row below the confirmed offset that is not live, closed now. */
  function Closed(c: Clock, t: Tables, now: int): Tables {
    t.(rows := map id | id in t.rows ::
         if id < t.confirmed && !Live(c, t.rows[id], now)
         then Row(Dead, t.rows[id].attempts, t.rows[id].failures, "", None, Some(c.text(now)))
         else t.rows[id])
  }

  /** The row is out of reach of maintenance, or within both limits of its kind. */
  predicate Kept(c: Clock, t: Tables, now: int, id: int)
    requires id in t.rows
  {
    var all := Closed(c, t, now);
    && (id < t.confirmed && all.rows[id].status.Done? ==> !Overdue(all, id, 10_000, c.text(now - 30 * 24 * HOUR)))
    && (id < t.confirmed && all.rows[id].status.Dead? ==> !Overdue(all, id, 1_000, c.text(now - 90 * 24 * HOUR)))
  }

  lemma ClosedIsReconciled(c: Clock, t: Tables, now: int)
    ensures Closed(c, t, now) == ReconcileAll(c, t, now)
  {
    forall id | id in t.rows
      ensures Closed(c, t, now).rows[id] == ReconcileAll(c, t, now).rows[id]
    {
      assert id in AbandonableIds(c, t, now) <==> id < t.confirmed && Abandonable(c, t.rows[id], now);
    }
    SameMap(Closed(c, t, now).rows, ReconcileAll(c, t, now).rows);
  }

  lemma IdealIsKept(c: Clock, t: Tables, now: int)
    ensures var u := Ideal(c, t, now);
      && u.next == t.next && u.confirmed == t.confirmed
      && (forall id :: id in u.rows <==> id in t.rows && Kept(c, t, now, id))
      && (forall id | id in u.rows :: u.rows[id] == Closed(c, t, now).rows[id])
  {
    var all, done, dead := Closed(c, t, now), c.text(now - DONE_RETENTION_AGE), c.text(now - DEAD_RETENTION_AGE);
    ClosedIsReconciled(c, t, now);
    PrunableAcrossKinds(all, Done, DONE_RETENTION_LIMIT, done, Dead, DEAD_RETENTION_LIMIT, dead);
    forall id | id in t.rows ensures id in Ideal(c, t, now).rows <==> Kept(c, t, now, id) {
      PrunableIsOverdue(all, Done, DONE_RETENTION_LIMIT, done, id);
      PrunableIsOverdue(all, Dead, DEAD_RETENTION_LIMIT, dead, id);
    }
  }

  /**
   Where repeated maintenance ends: below the confirmed offset every row that is not live is closed, and a
   finished row survives exactly if it is neither too old nor followed by a full quota of its kind. No
   other row is touched.
   */
  lemma MaintenanceKeepsExactly(c: Clock, t: Tables, now: int, n: nat)
    requires WellFormed(t) && Backlog(c, t, now) <= n
    ensures var u := Passes(c, t, now, n);
      && u.next == t.next && u.confirmed == t.confirmed
      && (forall id :: id in u.rows <==> id in t.rows && Kept(c, t, now, id))
      && (forall id | id in u.rows :: u.rows[id] == Closed(c, t, now).rows[id])
  {
    MaintenanceIsConfluent(c, t, now, n);
    IdealIsKept(c, t, now);
  }

  /** Passes only move towards that end: what a pass deletes would not have survived, what it changes is closed. */
  lemma PassKeepsAtLeast(c: Clock, t: Tables, now: int)
    requires WellFormed(t)
    ensures var u := Maintain(c, t, now);
      && u.next == t.next && u.confirmed == t.confirmed && u.rows.Keys <= t.rows.Keys
      && (forall id | id in t.rows && Kept(c, t, now, id) :: id in u.rows)
      && (forall id | id in u.rows :: u.rows[id] == t.rows[id] || u.rows[id] == Closed(c, t, now).rows[id])
  {
    hide Maintain, Ideal, Kept, Closed, WellFormed;
    MaintainSweeps(c, t, now);
    IdealIsStable(c, t, now);
    IdealIsKept(c, t, now);
    IdealIsKept(c, Maintain(c, t, now), now);
    SweptIsClosed(c, t, Maintain(c, t, now), now);
  }

  lemma SweptIsClosed(c: Clock, t: Tables, u: Tables, now: int)
    requires Swept(c, t, u, now)
    ensures forall id | id in u.rows :: u.rows[id] == t.rows[id] || u.rows[id] == Closed(c, t, now).rows[id]
  {
  }

  /** Deleting done rows, then dead ones, from tables in which some rows were closed. */
  lemma GoneByKind(rows: map<int, Row>, closed: map<int, Row>, left: set<int>, doneBatch: set<int>, deadBatch: set<int>)
    requires closed.Keys == rows.Keys && left == closed.Keys - doneBatch - deadBatch
    requires forall id | id in rows && closed[id] != rows[id] :: closed[id].status.Dead? && !rows[id].status.Done?
    requires forall id | id in doneBatch :: id in closed && closed[id].status.Done?
    requires forall id | id in deadBatch :: id in closed && closed[id].status.Dead?
    ensures var gone := rows.Keys - left;
            var done := set id | id in gone && rows[id].status.Done?;
      done == doneBatch && gone - done == deadBatch
  {
    forall id | id in doneBatch + deadBatch
      ensures id in rows && (rows[id].status.Done? <==> id in doneBatch)
    {
      assert id in closed.Keys;
    }
    var gone := rows.Keys - left;
    assert gone == doneBatch + deadBatch;
    var done := set id | id in gone && rows[id].status.Done?;
    forall id ensures (id in done <==> id in doneBatch) && (id in gone - done <==> id in deadBatch) {
    }
  }

  /** The reported counts are the done rows, and all the other rows, that the pass deleted. */
  lemma CountsAreDeletions(c: Clock, t: Tables, now: int)
    ensures var out := Perform(c, t, Call(Prune, now, NoFault));
            var gone := t.rows.Keys - out.tables.rows.Keys;
            var done := set id | id in gone && t.rows[id].status.Done?;
      out.tables == Maintain(c, t, now) && out.reply == Ok(Pruned(|done|, |gone - done|))
  {
    hide Reconcile, PruneBatch, PruneTerminal;
    var closed := Reconcile(c, t, now);
    var undone := PruneDone(c, closed, now);
    var doneCutoff, deadCutoff := c.text(now - DONE_RETENTION_AGE), c.text(now - DEAD_RETENTION_AGE);
    var doneBatch := PruneBatch(closed, Done, DONE_RETENTION_LIMIT, doneCutoff);
    var deadBatch := PruneBatch(undone, Dead, DEAD_RETENTION_LIMIT, deadCutoff);
    BatchIsOfKind(closed, undone, doneBatch, doneCutoff, deadBatch, deadCutoff);
    ClosedAreDead(c, t, now);
    GoneByKind(t.rows, closed.rows, Maintain(c, t, now).rows.Keys, doneBatch, deadBatch);
  }

  lemma ClosedAreDead(c: Clock, t: Tables, now: int)
    ensures var u := Reconcile(c, t, now);
      && u.rows.Keys == t.rows.Keys
      && (forall id | id in t.rows && u.rows[id] != t.rows[id] :: u.rows[id].status.Dead? && !t.rows[id].status.Done?)
  {
  }

  lemma BatchIsOfKind(closed: Tables, undone: Tables, doneBatch: set<int>, doneCutoff: int,
                      deadBatch: set<int>, deadCutoff: int)
    requires undone == PruneTerminal(closed, Done, DONE_RETENTION_LIMIT, doneCutoff)
    requires doneBatch == PruneBatch(closed, Done, DONE_RETENTION_LIMIT, doneCutoff)
    requires deadBatch == PruneBatch(undone, Dead, DEAD_RETENTION_LIMIT, deadCutoff)
    ensures forall id | id in doneBatch :: id in closed.rows && closed.rows[id].status.Done?
    ensures forall id | id in deadBatch :: id in closed.rows && closed.rows[id].status.Dead?
    ensures PruneTerminal(undone, Dead, DEAD_RETENTION_LIMIT, deadCutoff).rows.Keys
         == closed.rows.Keys - doneBatch - deadBatch
  {
  }

  /** Confirming never goes back or past the next offset, and maintains the journal exactly when it moves on. */
  lemma ConfirmationLaw(c: Clock, t: Tables, offset: int, now: int)
    ensures var out := Perform(c, t, Call(Confirm(offset), now, NoFault));
      && (out.reply == Ok(Acknowledged) <==> 0 <= offset <= t.next)
      && (out.reply.Err? || offset <= t.confirmed ==> out.tables == t)
      && (out.reply.Ok? && t.confirmed < offset ==>
            out.tables == Maintain(c, Tables(t.next, offset, t.rows), now))
  {
    hide Maintain;
  }
}
