/**
 Journal maintenance at a fixed clock: repeated passes reach a fixpoint, and the
 fixpoint is what one unbatched application of the retention rules would leave.
 */
module Maintenance {
  import opened Sets
  import opened Ordering
  import opened Journal
  import opened JournalSafety

  function Passes(c: Clock, t: Tables, now: int, n: nat): Tables
    decreases n
  {
    if n == 0 then t else Passes(c, Maintain(c, t, now), now, n - 1)
  }

  /** Rows still to abandon, then rows still to delete. */
  function Backlog(c: Clock, t: Tables, now: int): nat {
    |AbandonableIds(c, t, now)| + |t.rows|
  }

  lemma MapSize<K, V>(m: map<K, V>)
    ensures |m| == |m.Keys|
  {
  }

  lemma SameMap<K, V>(m: map<K, V>, n: map<K, V>)
    requires m.Keys == n.Keys && forall k | k in m :: m[k] == n[k]
    ensures m == n
  {
  }

  /** Every pass that changes anything shrinks the backlog. */
  lemma {:induction false} PassShrinksBacklog(c: Clock, t: Tables, now: int)
    requires Maintain(c, t, now) != t
    ensures Backlog(c, Maintain(c, t, now), now) < Backlog(c, t, now)
  {
    var u := Maintain(c, t, now);
    MaintainSweeps(c, t, now);
    hide Maintain;
    var early, late := AbandonableIds(c, t, now), AbandonableIds(c, u, now);
    assert late <= early;
    SubsetSize(late, early);
    SubsetSize(u.rows.Keys, t.rows.Keys);
    MapSize(t.rows);
    MapSize(u.rows);
    if u.rows.Keys == t.rows.Keys {
      if forall id | id in u.rows :: u.rows[id] == t.rows[id] { SameMap(u.rows, t.rows); }
      var id :| id in u.rows && u.rows[id] != t.rows[id];
      assert id in early && id !in late;
    }
  }

  /** No statement of a pass handles more than one batch of rows. */
  lemma PassIsBounded(c: Clock, t: Tables, now: int, status: Status, limit: nat, cutoff: int)
    ensures |Leading(ById(t), AbandonableIds(c, t, now), PRUNE_BATCH_SIZE)| <= PRUNE_BATCH_SIZE
    ensures |PruneBatch(t, status, limit, cutoff)| <= PRUNE_BATCH_SIZE
  {
    LeadingSelects(ById(t), AbandonableIds(c, t, now), PRUNE_BATCH_SIZE);
    LeadingSelects(ByFinished(t, false), PrunableIds(t, status, limit, cutoff), PRUNE_BATCH_SIZE);
  }

  predicate Quiescent(c: Clock, t: Tables, now: int) {
    && AbandonableIds(c, t, now) == {}
    && PrunableIds(t, Done, DONE_RETENTION_LIMIT, c.text(now - DONE_RETENTION_AGE)) == {}
    && PrunableIds(t, Dead, DEAD_RETENTION_LIMIT, c.text(now - DEAD_RETENTION_AGE)) == {}
  }

  lemma EmptyBatch(o: Order, s: set<int>, n: nat)
    requires s <= o.keys.Keys && 0 < n && Leading(o, s, n) == {}
    ensures s == {}
  {
    LeadingSelects(o, s, n);
  }

  lemma ReconcileIdle(c: Clock, t: Tables, now: int)
    requires AbandonableIds(c, t, now) == {}
    ensures Reconcile(c, t, now) == t
  {
    assert Reconcile(c, t, now).rows == t.rows;
  }

  lemma PruneIdle(t: Tables, status: Status, limit: nat, cutoff: int)
    ensures PruneTerminal(t, status, limit, cutoff) == t <==> PrunableIds(t, status, limit, cutoff) == {}
  {
    var batch := PruneBatch(t, status, limit, cutoff);
    if PrunableIds(t, status, limit, cutoff) == {} {
      assert batch == {};
      assert t.rows - batch == t.rows;
    } else if batch == {} {
      EmptyBatch(ByFinished(t, false), PrunableIds(t, status, limit, cutoff), PRUNE_BATCH_SIZE);
    } else {
      var id := Member(batch);
      assert id in t.rows && id !in PruneTerminal(t, status, limit, cutoff).rows;
    }
  }

  /** A pass that starts with rows to abandon changes one of them. */
  lemma ReconcileActs(c: Clock, t: Tables, now: int)
    requires AbandonableIds(c, t, now) != {}
    ensures Maintain(c, t, now) != t
  {
    var batch := Leading(ById(t), AbandonableIds(c, t, now), PRUNE_BATCH_SIZE);
    if batch == {} { EmptyBatch(ById(t), AbandonableIds(c, t, now), PRUNE_BATCH_SIZE); }
    var id := Member(batch);
    assert Reconcile(c, t, now).rows[id].status.Dead? && !t.rows[id].status.Dead?;
    assert id !in Maintain(c, t, now).rows || Maintain(c, t, now).rows[id] != t.rows[id];
  }

  /** A pass changes nothing exactly when nothing is left to abandon or to delete. */
  lemma FixpointIsQuiescent(c: Clock, t: Tables, now: int)
    ensures Maintain(c, t, now) == t <==> Quiescent(c, t, now)
  {
    var doneCutoff, deadCutoff := c.text(now - DONE_RETENTION_AGE), c.text(now - DEAD_RETENTION_AGE);
    if AbandonableIds(c, t, now) != {} {
      ReconcileActs(c, t, now);
    } else {
      ReconcileIdle(c, t, now);
      PruneIdle(t, Done, DONE_RETENTION_LIMIT, doneCutoff);
      PruneIdle(PruneDone(c, t, now), Dead, DEAD_RETENTION_LIMIT, deadCutoff);
      var undone := PruneDone(c, t, now);
      assert undone.rows.Keys <= t.rows.Keys && Maintain(c, t, now).rows.Keys <= undone.rows.Keys;
      if undone != t {
        assert undone.rows.Keys != t.rows.Keys;
        assert Maintain(c, t, now) != t;
      }
    }
  }

  /** What a quiescent journal looks like: nothing abandonable and both retention limits met. */
  lemma QuiescentMeetsRetention(c: Clock, t: Tables, now: int)
    requires Quiescent(c, t, now)
    ensures forall id | id in t.rows && id < t.confirmed :: !Abandonable(c, t.rows[id], now)
    ensures |Settled(t, Done)| <= DONE_RETENTION_LIMIT && |Settled(t, Dead)| <= DEAD_RETENTION_LIMIT
    ensures forall id | id in Settled(t, Done) :: !Outdated(t.rows[id], c.text(now - DONE_RETENTION_AGE))
    ensures forall id | id in Settled(t, Dead) :: !Outdated(t.rows[id], c.text(now - DEAD_RETENTION_AGE))
  {
    forall id | id in t.rows && id < t.confirmed ensures !Abandonable(c, t.rows[id], now) {
      assert id in AbandonableIds(c, t, now) <==> Abandonable(c, t.rows[id], now);
    }
    NothingPrunable(t, Done, DONE_RETENTION_LIMIT, c.text(now - DONE_RETENTION_AGE));
    NothingPrunable(t, Dead, DEAD_RETENTION_LIMIT, c.text(now - DEAD_RETENTION_AGE));
  }

  lemma NothingPrunable(t: Tables, status: Status, limit: nat, cutoff: int)
    requires PrunableIds(t, status, limit, cutoff) == {}
    ensures |Settled(t, status)| <= limit
    ensures forall id | id in Settled(t, status) :: !Outdated(t.rows[id], cutoff)
  {
    var settled := Settled(t, status);
    var newest := Leading(ByFinished(t, true), settled, limit);
    forall id | id in settled ensures !Outdated(t.rows[id], cutoff) && id in newest {
      assert id in PrunableIds(t, status, limit, cutoff) <==> Outdated(t.rows[id], cutoff) || id !in newest;
    }
    LeadingSelects(ByFinished(t, true), settled, limit);
    SubsetSize(settled, newest);
  }

  /** Repeated maintenance stops changing the journal after at most `Backlog` passes. */
  lemma {:induction false} MaintenanceTerminates(c: Clock, t: Tables, now: int, n: nat)
    requires Backlog(c, t, now) <= n
    ensures Quiescent(c, Passes(c, t, now, n), now)
    ensures Maintain(c, Passes(c, t, now, n), now) == Passes(c, t, now, n)
    decreases n
  {
    hide Maintain, Quiescent;
    if Maintain(c, t, now) == t {
      PassesAtFixpoint(c, t, now, n);
      FixpointIsQuiescent(c, t, now);
    } else {
      PassShrinksBacklog(c, t, now);
      MaintenanceTerminates(c, Maintain(c, t, now), now, n - 1);
    }
  }

  lemma {:induction false} PassesAtFixpoint(c: Clock, t: Tables, now: int, n: nat)
    requires Maintain(c, t, now) == t
    ensures Passes(c, t, now, n) == t
  {
    if n > 0 { PassesAtFixpoint(c, t, now, n - 1); }
  }

  // ---- The fixpoint, in one step ----

  function ReconcileAll(c: Clock, t: Tables, now: int): Tables {
    t.(rows := map id | id in t.rows ::
         if id in AbandonableIds(c, t, now) then DeadRow(c, t.rows[id], t.rows[id].failures, now) else t.rows[id])
  }

  function Retain(t: Tables, status: Status, limit: nat, cutoff: int): Tables {
    t.(rows := t.rows - PrunableIds(t, status, limit, cutoff))
  }

  function RetainDone(c: Clock, t: Tables, now: int): Tables {
    Retain(t, Done, DONE_RETENTION_LIMIT, c.text(now - DONE_RETENTION_AGE))
  }

  function RetainDead(c: Clock, t: Tables, now: int): Tables {
    Retain(t, Dead, DEAD_RETENTION_LIMIT, c.text(now - DEAD_RETENTION_AGE))
  }

  /** The retention rules applied once to the whole journal, without batches. */
  function Ideal(c: Clock, t: Tables, now: int): Tables {
    RetainDead(c, RetainDone(c, ReconcileAll(c, t, now), now), now)
  }

  function Without(t: Tables, ids: set<int>): Tables { t.(rows := t.rows - ids) }

  lemma ReconcileAllKeepsShape(c: Clock, t: Tables, now: int)
    requires WellFormed(t)
    ensures WellFormed(ReconcileAll(c, t, now))
  {
  }

  lemma NewestWithout(t: Tables, ids: set<int>, status: Status, limit: nat)
    ensures Settled(Without(t, ids), status) == Settled(t, status) - ids
    ensures Leading(ByFinished(Without(t, ids), true), Settled(t, status) - ids, limit)
         == Leading(ByFinished(t, true), Settled(t, status) - ids, limit)
  {
    LeadingDependsOnKeys(ByFinished(Without(t, ids), true), ByFinished(t, true), Settled(t, status) - ids, limit);
  }

  /** Deleting some prunable rows leaves the other verdicts as they were. */
  lemma PrunableWithout(t: Tables, ids: set<int>, status: Status, limit: nat, cutoff: int)
    requires WellFormed(t) && status.Terminal()
    requires ids <= PrunableIds(t, status, limit, cutoff)
    ensures PrunableIds(Without(t, ids), status, limit, cutoff) == PrunableIds(t, status, limit, cutoff) - ids
  {
    var o, all := ByFinished(t, true), Settled(t, status);
    var rest := all - ids;
    NewestWithout(t, ids, status, limit);
    forall x | x in rest
      ensures x in PrunableIds(Without(t, ids), status, limit, cutoff) <==> x in PrunableIds(t, status, limit, cutoff)
    {
      if Outdated(t.rows[x], cutoff) {
      } else if x in Leading(o, all, limit) {
        LeadingSurvivesRemoval(o, all, rest, limit, x);
      } else {
        var top := PassedOver(o, all, limit, x);
        assert top !! ids by {
          forall y | y in top ensures y !in ids {
            assert Before(o, y, x) && !Outdated(t.rows[y], cutoff);
          }
        }
        assert top <= Ahead(o, rest, x);
        SubsetSize(top, Ahead(o, rest, x));
      }
    }
  }

  lemma RetainAbsorbs(t: Tables, ids: set<int>, status: Status, limit: nat, cutoff: int)
    requires WellFormed(t) && status.Terminal()
    requires ids <= PrunableIds(t, status, limit, cutoff)
    ensures Retain(Without(t, ids), status, limit, cutoff) == Retain(t, status, limit, cutoff)
  {
    PrunableWithout(t, ids, status, limit, cutoff);
    var p := PrunableIds(t, status, limit, cutoff);
    assert t.rows - ids - (p - ids) == t.rows - p;
  }

  lemma ReconcileBatchesAddUp(c: Clock, t: Tables, now: int)
    ensures ReconcileAll(c, Reconcile(c, t, now), now) == ReconcileAll(c, t, now)
  {
    var u := Reconcile(c, t, now);
    forall id | id in t.rows
      ensures ReconcileAll(c, u, now).rows[id] == ReconcileAll(c, t, now).rows[id]
    {
      assert id in AbandonableIds(c, t, now) <==> id < t.confirmed && Abandonable(c, t.rows[id], now);
      assert id in AbandonableIds(c, u, now) <==> id < t.confirmed && Abandonable(c, u.rows[id], now);
    }
    SameMap(ReconcileAll(c, u, now).rows, ReconcileAll(c, t, now).rows);
  }

  lemma ReconcileCommutes(c: Clock, t: Tables, ids: set<int>, now: int)
    ensures ReconcileAll(c, Without(t, ids), now) == Without(ReconcileAll(c, t, now), ids)
  {
    var u := Without(t, ids);
    forall id | id in u.rows
      ensures ReconcileAll(c, u, now).rows[id] == Without(ReconcileAll(c, t, now), ids).rows[id]
    {
      assert id in AbandonableIds(c, t, now) <==> id < t.confirmed && Abandonable(c, t.rows[id], now);
      assert id in AbandonableIds(c, u, now) <==> id < t.confirmed && Abandonable(c, t.rows[id], now);
    }
    SameMap(ReconcileAll(c, u, now).rows, Without(ReconcileAll(c, t, now), ids).rows);
  }

  /** Reconciling keeps terminal rows and only adds dead ones, so old verdicts stand. */
  lemma VerdictsStand(c: Clock, t: Tables, now: int, status: Status, limit: nat, cutoff: int)
    requires status.Terminal()
    ensures PrunableIds(t, status, limit, cutoff) <= PrunableIds(ReconcileAll(c, t, now), status, limit, cutoff)
    ensures status.Done? ==>
              PrunableIds(t, status, limit, cutoff) == PrunableIds(ReconcileAll(c, t, now), status, limit, cutoff)
  {
    var u := ReconcileAll(c, t, now);
    var all, more := Settled(t, status), Settled(u, status);
    forall id | id in t.rows
      ensures id in all ==> id in more && u.rows[id] == t.rows[id]
      ensures status.Done? ==> (id in more <==> id in all)
    {
      assert id in AbandonableIds(c, t, now) <==> id < t.confirmed && Abandonable(c, t.rows[id], now);
    }
    LeadingDependsOnKeys(ByFinished(u, true), ByFinished(t, true), all, limit);
    if status.Done? { assert more == all; }
    forall x | x in all && x in Leading(ByFinished(u, true), more, limit)
      ensures x in Leading(ByFinished(u, true), all, limit)
    {
      LeadingSurvivesRemoval(ByFinished(u, true), more, all, limit, x);
    }
  }

  lemma IdealOfPrunedDone(c: Clock, t: Tables, now: int)
    requires WellFormed(t)
    ensures Ideal(c, PruneDone(c, t, now), now) == Ideal(c, t, now)
  {
    var cutoff := c.text(now - DONE_RETENTION_AGE);
    var ids, all := PruneBatch(t, Done, DONE_RETENTION_LIMIT, cutoff), ReconcileAll(c, t, now);
    ReconcileAllKeepsShape(c, t, now);
    ReconcileCommutes(c, t, ids, now);
    VerdictsStand(c, t, now, Done, DONE_RETENTION_LIMIT, cutoff);
    RetainAbsorbs(all, ids, Done, DONE_RETENTION_LIMIT, cutoff);
  }

  lemma IdealOfPrunedDead(c: Clock, t: Tables, now: int)
    requires WellFormed(t)
    ensures Ideal(c, PruneDead(c, t, now), now) == Ideal(c, t, now)
  {
    var cutoff := c.text(now - DEAD_RETENTION_AGE);
    var ids, all := PruneBatch(t, Dead, DEAD_RETENTION_LIMIT, cutoff), ReconcileAll(c, t, now);
    var kept := RetainDone(c, all, now);
    ReconcileAllKeepsShape(c, t, now);
    ReconcileCommutes(c, t, ids, now);
    VerdictsStand(c, t, now, Dead, DEAD_RETENTION_LIMIT, cutoff);
    RetainCommutes(all, ids, Done, DONE_RETENTION_LIMIT, c.text(now - DONE_RETENTION_AGE), Dead);
    PrunableAcrossKinds(all, Done, DONE_RETENTION_LIMIT, c.text(now - DONE_RETENTION_AGE),
                        Dead, DEAD_RETENTION_LIMIT, cutoff);
    RetainAbsorbs(kept, ids, Dead, DEAD_RETENTION_LIMIT, cutoff);
  }

  /** The verdicts on one kind of row do not depend on the rows of another kind. */
  lemma PrunableOfOtherKind(t: Tables, ids: set<int>, status: Status, limit: nat, cutoff: int)
    requires ids !! Settled(t, status)
    ensures PrunableIds(Without(t, ids), status, limit, cutoff) == PrunableIds(t, status, limit, cutoff)
  {
    NewestWithout(t, ids, status, limit);
    assert Settled(t, status) - ids == Settled(t, status);
  }

  lemma PrunableAcrossKinds(t: Tables, a: Status, aLimit: nat, aCutoff: int, b: Status, bLimit: nat, bCutoff: int)
    requires a != b
    ensures PrunableIds(Retain(t, a, aLimit, aCutoff), b, bLimit, bCutoff) == PrunableIds(t, b, bLimit, bCutoff)
  {
    PrunableOfOtherKind(t, PrunableIds(t, a, aLimit, aCutoff), b, bLimit, bCutoff);
  }

  lemma RetainCommutes(t: Tables, ids: set<int>, status: Status, limit: nat, cutoff: int, other: Status)
    requires ids <= Settled(t, other) && status != other
    ensures Retain(Without(t, ids), status, limit, cutoff) == Without(Retain(t, status, limit, cutoff), ids)
  {
    PrunableOfOtherKind(t, ids, status, limit, cutoff);
    var p := PrunableIds(t, status, limit, cutoff);
    assert t.rows - ids - p == t.rows - p - ids;
  }

  lemma IdealIsStable(c: Clock, t: Tables, now: int)
    requires WellFormed(t)
    ensures Ideal(c, Maintain(c, t, now), now) == Ideal(c, t, now)
  {
    var reconciled := Reconcile(c, t, now);
    ReconcileKeepsShape(c, t, now);
    var undone := PruneDone(c, reconciled, now);
    assert WellFormed(undone);
    calc {
      Ideal(c, Maintain(c, t, now), now);
      { IdealOfPrunedDead(c, undone, now); }
      Ideal(c, undone, now);
      { IdealOfPrunedDone(c, reconciled, now); }
      Ideal(c, reconciled, now);
      { ReconcileBatchesAddUp(c, t, now); }
      Ideal(c, t, now);
    }
  }

  lemma ReconcileKeepsShape(c: Clock, t: Tables, now: int)
    requires WellFormed(t)
    ensures WellFormed(Reconcile(c, t, now))
  {
  }

  lemma QuiescentIsIdeal(c: Clock, t: Tables, now: int)
    requires Quiescent(c, t, now)
    ensures Ideal(c, t, now) == t
  {
    SameMap(ReconcileAll(c, t, now).rows, t.rows);
    assert t.rows - {} == t.rows;
  }

  /**
   Batching does not matter: however the work is split into passes, the journal
   settles at what one application of the retention rules would have left.
   */
  lemma {:induction false} MaintenanceIsConfluent(c: Clock, t: Tables, now: int, n: nat)
    requires WellFormed(t)
    requires Backlog(c, t, now) <= n
    ensures Passes(c, t, now, n) == Ideal(c, t, now)
  {
    MaintenanceTerminates(c, t, now, n);
    PassesKeepIdeal(c, t, now, n);
    QuiescentIsIdeal(c, Passes(c, t, now, n), now);
  }

  lemma {:induction false} PassesKeepIdeal(c: Clock, t: Tables, now: int, n: nat)
    requires WellFormed(t)
    ensures Ideal(c, Passes(c, t, now, n), now) == Ideal(c, t, now)
    decreases n
  {
    if n > 0 {
      hide Maintain, Ideal;
      IdealIsStable(c, t, now);
      MaintainSweeps(c, t, now);
      SweptKeepsShape(c, t, Maintain(c, t, now), now);
      PassesKeepIdeal(c, Maintain(c, t, now), now, n - 1);
    }
  }
}
