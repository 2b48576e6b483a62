/**
 What every run of journal calls keeps: row shape, monotone offsets, frozen
 terminal rows, fenced ownership, exclusive claims and the attempt ledger.
 Calls may come from any number of processes, in any order, with any clock
 readings and any storage faults.
 */
module JournalSafety {
  import opened Results
  import opened Sets
  import opened Journal

  // ---- Shape ----

  predicate RowShape(row: Row) {
    && (row.status.Held() <==> row.owner != "")
    && (row.status.Held() <==> row.lease.Some?)
    && (row.status.Terminal() <==> row.finished.Some?)
    && 0 < row.attempts
  }

  predicate WellFormed(t: Tables) {
    && 0 <= t.confirmed <= t.next <= MAX_INT
    && forall id | id in t.rows :: ValidUpdate(id) && RowShape(t.rows[id])
  }

  /** How one row may change while a call does not remove it. */
  predicate RowStep(before: Row, after: Row) {
    && (before.status.Terminal() ==> after == before)
    && before.attempts <= after.attempts
    && before.failures <= after.failures
  }

  predicate TablesStep(before: Tables, after: Tables) {
    && before.next <= after.next
    && before.confirmed <= after.confirmed
    && (forall id | id in before.rows && id in after.rows :: RowStep(before.rows[id], after.rows[id]))
    && (forall id | id in before.rows && id !in after.rows :: id < after.confirmed)
    && (forall id | id in after.rows && id !in before.rows :: after.rows[id].status.Running?)
  }

  /** Maintenance touches only rows below the confirmed offset, and only dead ends among them. */
  predicate Swept(c: Clock, t: Tables, u: Tables, now: int) {
    && u.next == t.next && u.confirmed == t.confirmed && u.rows.Keys <= t.rows.Keys
    && (forall id | id in u.rows ::
          || u.rows[id] == t.rows[id]
          || (id < t.confirmed && Abandonable(c, t.rows[id], now)
              && u.rows[id] == DeadRow(c, t.rows[id], t.rows[id].failures, now)))
    && (forall id | id in t.rows && id !in u.rows ::
          id < t.confirmed && (t.rows[id].status.Terminal() || Abandonable(c, t.rows[id], now)))
  }

  lemma MaintainSweeps(c: Clock, t: Tables, now: int)
    ensures Swept(c, t, Maintain(c, t, now), now)
  {
  }

  lemma SweptKeepsShape(c: Clock, t: Tables, u: Tables, now: int)
    requires WellFormed(t) && Swept(c, t, u, now)
    ensures WellFormed(u) && TablesStep(t, u)
  {
  }

  lemma BeginKeepsShape(c: Clock, t: Tables, id: int, owner: string, lease: int, limit: int, now: int)
    requires WellFormed(t)
    ensures var u := BeginAttempt(c, t, id, owner, lease, limit, now).tables;
            WellFormed(u) && TablesStep(t, u)
  {
  }

  lemma SettlingKeepsShape(c: Clock, t: Tables, op: Op, now: int)
    requires WellFormed(t) && (op.Complete? || op.Abort? || op.Fail?)
    ensures var u := Intended(c, t, op, now).tables;
            WellFormed(u) && TablesStep(t, u)
  {
  }

  /** The checkpoint a maintenance statement works under. */
  function Checkpointed(t: Tables, op: Op): Tables {
    if op.Confirm? && 0 <= op.offset && t.confirmed < op.offset <= t.next then t.(confirmed := op.offset) else t
  }

  lemma MaintenanceSweeps(c: Clock, t: Tables, op: Op, now: int)
    requires op.Confirm? || op.Prune?
    ensures Swept(c, Checkpointed(t, op), Intended(c, t, op, now).tables, now)
  {
    MaintainSweeps(c, Checkpointed(t, op), now);
  }

  lemma MaintenanceKeepsShape(c: Clock, t: Tables, op: Op, now: int)
    requires WellFormed(t) && (op.Confirm? || op.Prune?)
    ensures var u := Intended(c, t, op, now).tables;
            WellFormed(u) && TablesStep(t, u)
  {
    hide Intended;
    MaintenanceSweeps(c, t, op, now);
    SweptKeepsShape(c, Checkpointed(t, op), Intended(c, t, op, now).tables, now);
  }

  lemma StepKeepsShape(c: Clock, t: Tables, call: Call)
    requires WellFormed(t)
    ensures WellFormed(Perform(c, t, call).tables)
    ensures TablesStep(t, Perform(c, t, call).tables)
  {
    match call.op {
      case Begin(id, owner, lease, limit) => BeginKeepsShape(c, t, id, owner, lease, limit, call.now);
      case Confirm(_) => MaintenanceKeepsShape(c, t, call.op, call.now);
      case Prune => MaintenanceKeepsShape(c, t, call.op, call.now);
      case _ => SettlingKeepsShape(c, t, call.op, call.now);
    }
  }

  lemma {:induction false} RunKeepsShape(c: Clock, t: Tables, calls: seq<Call>)
    requires WellFormed(t)
    ensures WellFormed(After(c, t, calls))
    decreases |calls|
  {
    if calls != [] {
      RunKeepsShape(c, t, calls[..|calls| - 1]);
      StepKeepsShape(c, After(c, t, calls[..|calls| - 1]), calls[|calls| - 1]);
    }
  }

  // ---- Offsets and terminal rows over a run ----

  /** Offsets never move back, however far apart two moments of a run are. */
  lemma {:induction false} OffsetsNeverMoveBack(c: Clock, t: Tables, calls: seq<Call>, i: nat)
    requires WellFormed(t) && i <= |calls|
    ensures var early := After(c, t, calls[..i]);
            var late := After(c, t, calls);
            early.next <= late.next && early.confirmed <= late.confirmed
    decreases |calls|
  {
    if i == |calls| {
      assert calls[..i] == calls;
    } else {
      var most := calls[..|calls| - 1];
      assert most[..i] == calls[..i];
      OffsetsNeverMoveBack(c, t, most, i);
      RunKeepsShape(c, t, most);
      StepKeepsShape(c, After(c, t, most), calls[|calls| - 1]);
    }
  }

  predicate PresentThroughout(c: Clock, t: Tables, calls: seq<Call>, i: nat, id: int)
    requires i <= |calls|
  {
    forall m | i <= m <= |calls| :: id in After(c, t, calls[..m]).rows
  }

  lemma PresentEarlier(c: Clock, t: Tables, calls: seq<Call>, i: nat, id: int)
    requires i < |calls| && PresentThroughout(c, t, calls, i, id)
    ensures PresentThroughout(c, t, calls[..|calls| - 1], i, id)
  {
    var most := calls[..|calls| - 1];
    forall m | i <= m <= |most| ensures id in After(c, t, most[..m]).rows {
      assert most[..m] == calls[..m];
    }
  }

  /** A terminal row is frozen until maintenance deletes it. */
  lemma {:induction false} TerminalRowsNeverChange(c: Clock, t: Tables, calls: seq<Call>, i: nat, id: int)
    requires WellFormed(t) && i <= |calls|
    requires PresentThroughout(c, t, calls, i, id)
    requires id in After(c, t, calls[..i]).rows && After(c, t, calls[..i]).rows[id].status.Terminal()
    ensures id in After(c, t, calls).rows
    ensures After(c, t, calls).rows[id] == After(c, t, calls[..i]).rows[id]
    decreases |calls|
  {
    assert calls[..|calls|] == calls;
    if i < |calls| {
      var most := calls[..|calls| - 1];
      assert most[..i] == calls[..i];
      PresentEarlier(c, t, calls, i, id);
      TerminalRowsNeverChange(c, t, most, i, id);
      RunKeepsShape(c, t, most);
      StepKeepsShape(c, After(c, t, most), calls[|calls| - 1]);
    }
  }

  // ---- Ownership ----

  /** Completing, aborting or failing an update needs the current claim; any other caller leaves no trace. */
  lemma OnlyTheOwnerSettles(c: Clock, t: Tables, call: Call)
    requires call.op.Complete? || call.op.Abort? || call.op.Fail?
    requires Perform(c, t, call).tables != t
    ensures OwnsClaim(t, call.op.id, call.op.owner)
    ensures Perform(c, t, call).tables.rows.Keys == t.rows.Keys
    ensures forall id | id in t.rows && id != call.op.id :: Perform(c, t, call).tables.rows[id] == t.rows[id]
  {
  }

  /** The caller was told to execute the update. */
  predicate Grants(c: Clock, t: Tables, call: Call, id: int) {
    && call.op.Begin? && call.op.id == id
    && var reply := Perform(c, t, call).reply;
       reply.Ok? && reply.value.Claimed? && reply.value.disposition.Execute?
  }

  /** An abort or a failure of the update was committed. */
  predicate Releases(c: Clock, t: Tables, call: Call, id: int) {
    && (call.op.Abort? || call.op.Fail?) && call.op.id == id
    && Perform(c, t, call).tables != t
  }

  /** The claim granted under `lease` is still in force, or the update is finished. */
  predicate Guarded(t: Tables, id: int, lease: int) {
    && id in t.rows
    && (t.rows[id].status.Terminal() || (t.rows[id].status.Running? && t.rows[id].lease == Some(lease)))
  }

  lemma GuardStep(c: Clock, t: Tables, call: Call, id: int, lease: int)
    requires Guarded(t, id, lease)
    requires id in Perform(c, t, call).tables.rows
    ensures
      || Guarded(Perform(c, t, call).tables, id, lease)
      || Releases(c, t, call, id)
      || TakesOver(c, t, call, id, lease)
    ensures Grants(c, t, call, id) ==> TakesOver(c, t, call, id, lease)
  {
    if call.op.Confirm? || call.op.Prune? {
      hide Intended;
      MaintenanceSweeps(c, t, call.op, call.now);
    }
  }

  predicate GrantAt(c: Clock, t: Tables, calls: seq<Call>, i: nat, id: int)
    requires i < |calls|
  {
    Grants(c, After(c, t, calls[..i]), calls[i], id)
  }

  predicate ReleaseAt(c: Clock, t: Tables, calls: seq<Call>, i: nat, id: int)
    requires i < |calls|
  {
    Releases(c, After(c, t, calls[..i]), calls[i], id)
  }

  /** A claim at a clock reading no earlier than the lease was committed and changed the row. */
  predicate TakesOver(c: Clock, t: Tables, call: Call, id: int, lease: int) {
    && call.op.Begin? && call.op.id == id && lease <= call.now
    && Commits(c, t, call) && Changes(t, Perform(c, t, call).tables, id)
  }

  predicate Changes(t: Tables, u: Tables, id: int) { id in t.rows && id in u.rows && u.rows[id] != t.rows[id] }

  predicate TakeoverAt(c: Clock, t: Tables, calls: seq<Call>, i: nat, id: int, lease: int)
    requires i < |calls|
  {
    TakesOver(c, After(c, t, calls[..i]), calls[i], id, lease)
  }

  lemma {:induction false} ClaimPersists(c: Clock, t: Tables, calls: seq<Call>, i: nat, id: int, k: nat)
    requires i < k <= |calls|
    requires GrantAt(c, t, calls, i, id) && calls[i].op.Begin?
    requires forall m | i < m <= k :: id in After(c, t, calls[..m]).rows
    ensures
      || Guarded(After(c, t, calls[..k]), id, calls[i].op.lease)
      || (exists m :: i < m < k && (ReleaseAt(c, t, calls, m, id) || TakeoverAt(c, t, calls, m, id, calls[i].op.lease)))
    decreases k
  {
    AfterStep(c, t, calls, k);
    hide After, Perform, Grants, Releases, Guarded, TakesOver;
    var before := After(c, t, calls[..k - 1]);
    if k - 1 == i {
      GrantGuards(c, before, calls[i], id);
    } else {
      ClaimPersists(c, t, calls, i, id, k - 1);
      if Guarded(before, id, calls[i].op.lease) {
        GuardStep(c, before, calls[k - 1], id, calls[i].op.lease);
        assert Guarded(After(c, t, calls[..k]), id, calls[i].op.lease)
            || ReleaseAt(c, t, calls, k - 1, id) || TakeoverAt(c, t, calls, k - 1, id, calls[i].op.lease);
      }
    }
  }

  lemma AfterStep(c: Clock, t: Tables, calls: seq<Call>, k: nat)
    requires 0 < k <= |calls|
    ensures After(c, t, calls[..k]) == Perform(c, After(c, t, calls[..k - 1]), calls[k - 1]).tables
  {
    assert calls[..k][..k - 1] == calls[..k - 1] && calls[..k][k - 1] == calls[k - 1];
  }

  lemma GrantGuards(c: Clock, t: Tables, call: Call, id: int)
    requires Grants(c, t, call, id)
    ensures call.op.Begin? && Guarded(Perform(c, t, call).tables, id, call.op.lease)
  {
  }

  /**
   Claims are exclusive: while a row is not pruned, two "execute" answers for one
   update are separated by a committed abort or failure, or by a committed claim made
   once the first lease had run out (the second "execute" itself at the latest).
   */
  lemma ClaimsAreExclusive(c: Clock, t: Tables, calls: seq<Call>, i: nat, k: nat, id: int)
    requires i < k < |calls|
    requires GrantAt(c, t, calls, i, id) && GrantAt(c, t, calls, k, id)
    requires forall m | i < m <= k :: id in After(c, t, calls[..m]).rows
    ensures exists m :: i < m <= k
              && ((m < k && ReleaseAt(c, t, calls, m, id)) || TakeoverAt(c, t, calls, m, id, calls[i].op.lease))
  {
    ClaimPersists(c, t, calls, i, id, k);
    if Guarded(After(c, t, calls[..k]), id, calls[i].op.lease) {
      var before := After(c, t, calls[..k]);
      var after := Perform(c, before, calls[k]).tables;
      assert id in after.rows;
      GuardStep(c, before, calls[k], id, calls[i].op.lease);
      assert TakeoverAt(c, t, calls, k, id, calls[i].op.lease);
    }
  }

  // ---- The attempt ledger ----

  /**
   What a run did to one row since it was inserted, counted from committed calls. `swept` says that
   maintenance closed the row, `orphaned` that it was running at that moment.
   */
  datatype Ledger = Ledger(granted: nat, aborted: nat, failed: nat, expired: nat, swept: bool, orphaned: bool)

  const NEW_LEDGER := Ledger(0, 0, 0, 0, false, false)

  predicate Commits(c: Clock, t: Tables, call: Call) {
    Intended(c, t, call.op, call.now).reply.Ok? && !call.fault.RolledBack?
  }

  function Entry(c: Clock, t: Tables, call: Call, id: int, entry: Ledger): Ledger {
    if !Commits(c, t, call) then entry
    else
      var reply := Intended(c, t, call.op, call.now).reply.value;
      var wasRunning := id in t.rows && t.rows[id].status.Running?;
      match call.op
      case Begin(of, _, _, _) =>
        if of != id then entry
        else
          var seized := if wasRunning && !reply.disposition.Busy? then entry.(expired := entry.expired + 1) else entry;
          if reply.disposition.Execute? then seized.(granted := entry.granted + 1) else seized
      case Complete(_, _, _) => entry
      case Abort(of, _) => if of != id then entry else entry.(aborted := entry.aborted + 1)
      case Fail(of, _, _, _, _, _) => if of != id then entry else entry.(failed := entry.failed + 1)
      case Confirm(_) => if Buried(c, t, call, id) then entry.(swept := true, orphaned := wasRunning) else entry
      case Prune => if Buried(c, t, call, id) then entry.(swept := true, orphaned := wasRunning) else entry
  }

  /** The call closed the row. */
  predicate Buried(c: Clock, t: Tables, call: Call, id: int) {
    var u := Perform(c, t, call).tables;
    id in t.rows && !t.rows[id].status.Dead? && id in u.rows && u.rows[id].status.Dead?
  }

  /** The ledger of the row currently stored for `id`; it restarts when the row is inserted anew. */
  function Count(c: Clock, calls: seq<Call>, id: int): Ledger
    decreases |calls|
  {
    if calls == [] then NEW_LEDGER
    else
      var most, last := calls[..|calls| - 1], calls[|calls| - 1];
      var t := After(c, EMPTY, most);
      Entry(c, t, last, id, if id in t.rows then Count(c, most, id) else NEW_LEDGER)
  }

  predicate Threshold(calls: seq<Call>, limit: int) {
    forall i | 0 <= i < |calls| ::
      (calls[i].op.Begin? ==> calls[i].op.limit == limit) && (calls[i].op.Fail? ==> calls[i].op.limit == limit)
  }

  predicate Balanced(row: Row, e: Ledger, limit: int) {
    && row.attempts == e.granted
    && row.failures == e.failed + e.expired
    && e.granted == e.failed + e.expired + e.aborted
                    + (if row.status.Running? || row.status.Done? || e.orphaned then 1 else 0)
    && (e.orphaned ==> e.swept) && (e.swept ==> row.status.Dead?)
    && (if row.status.Dead? && !e.swept then row.failures == limit else row.failures < limit)
  }

  lemma BalanceStep(c: Clock, t: Tables, call: Call, id: int, entry: Ledger, limit: int)
    requires WellFormed(t) && 0 < limit
    requires Threshold([call], limit)
    requires id in t.rows ==> Balanced(t.rows[id], entry, limit)
    requires id !in t.rows ==> entry == NEW_LEDGER
    requires id in Perform(c, t, call).tables.rows
    ensures Balanced(Perform(c, t, call).tables.rows[id], Entry(c, t, call, id, entry), limit)
  {
    assert [call][0] == call;
    hide Perform, Entry, Balanced, WellFormed;
    if call.op.Confirm? || call.op.Prune? {
      BalanceOfMaintenance(c, t, call, id, entry, limit);
    } else if call.op.Begin? {
      BalanceOfBegin(c, t, call, id, entry, limit);
    } else {
      BalanceOfSettling(c, t, call, id, entry, limit);
    }
  }

  lemma BalanceOfMaintenance(c: Clock, t: Tables, call: Call, id: int, entry: Ledger, limit: int)
    requires WellFormed(t) && 0 < limit
    requires call.op.Confirm? || call.op.Prune?
    requires id in t.rows ==> Balanced(t.rows[id], entry, limit)
    requires id !in t.rows ==> entry == NEW_LEDGER
    requires id in Perform(c, t, call).tables.rows
    ensures Balanced(Perform(c, t, call).tables.rows[id], Entry(c, t, call, id, entry), limit)
  {
    hide Intended;
    MaintenanceSweeps(c, t, call.op, call.now);
  }

  lemma BalanceOfSettling(c: Clock, t: Tables, call: Call, id: int, entry: Ledger, limit: int)
    requires WellFormed(t) && 0 < limit
    requires call.op.Complete? || call.op.Abort? || (call.op.Fail? && call.op.limit == limit)
    requires id in t.rows ==> Balanced(t.rows[id], entry, limit)
    requires id !in t.rows ==> entry == NEW_LEDGER
    requires id in Perform(c, t, call).tables.rows
    ensures Balanced(Perform(c, t, call).tables.rows[id], Entry(c, t, call, id, entry), limit)
  {
  }

  lemma BalanceOfBegin(c: Clock, t: Tables, call: Call, id: int, entry: Ledger, limit: int)
    requires WellFormed(t) && 0 < limit
    requires call.op.Begin? && call.op.limit == limit
    requires id in t.rows ==> Balanced(t.rows[id], entry, limit)
    requires id !in t.rows ==> entry == NEW_LEDGER
    requires id in Perform(c, t, call).tables.rows
    ensures Balanced(Perform(c, t, call).tables.rows[id], Entry(c, t, call, id, entry), limit)
  {
  }

  /**
   Every attempt is accounted for: it failed, its lease ran out, it was aborted,
   or it is the one that is running, completed, or was abandoned while running. A
   dead row that maintenance did not close has failed exactly as often as the threshold
   says, and any other row less often.
   */
  lemma {:induction false} AttemptsAreAccounted(c: Clock, calls: seq<Call>, id: int, limit: int)
    requires Threshold(calls, limit) && 0 < limit
    requires id in After(c, EMPTY, calls).rows
    ensures Balanced(After(c, EMPTY, calls).rows[id], Count(c, calls, id), limit)
    decreases |calls|
  {
    var most, last := calls[..|calls| - 1], calls[|calls| - 1];
    assert Threshold(most, limit) && Threshold([last], limit);
    var t := After(c, EMPTY, most);
    RunKeepsShape(c, EMPTY, most);
    if id in t.rows { AttemptsAreAccounted(c, most, id, limit); }
    BalanceStep(c, t, last, id, if id in t.rows then Count(c, most, id) else NEW_LEDGER, limit);
  }

  /** A poison update consumes at most `limit` executions that neither complete nor abort. */
  lemma {:induction false} PoisonBound(c: Clock, calls: seq<Call>, id: int, limit: int)
    requires Threshold(calls, limit) && 0 < limit
    requires id in After(c, EMPTY, calls).rows
    ensures var row := After(c, EMPTY, calls).rows[id];
            var e := Count(c, calls, id);
            e.granted - e.aborted - (if row.status.Done? then 1 else 0) <= limit
  {
    AttemptsAreAccounted(c, calls, id, limit);
  }
}
