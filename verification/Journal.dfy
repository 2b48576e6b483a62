/**
 The durable Telegram update journal: one polling checkpoint and one row per
 update. Every operation is a single database transaction, given first as a
 function from the journal before to the journal after, and then as a method of
 the class `UpdateJournal` that assigns the tables in place.
 */
module Journal {
  import opened Results
  import opened Ordering
  import opened Sets

  /** The largest value of the source's 64-bit `int`. */
  const MAX_INT: int := 0x7FFF_FFFF_FFFF_FFFF

  const HOUR: int := 3_600_000_000_000
  const DONE_RETENTION_LIMIT: nat := 10_000
  const DONE_RETENTION_AGE: int := 30 * 24 * HOUR
  const DEAD_RETENTION_LIMIT: nat := 1_000
  const DEAD_RETENTION_AGE: int := 90 * 24 * HOUR
  const PRUNE_BATCH_SIZE: nat := 256
  const MAX_OWNER_TOKEN_BYTES: nat := 128
  const MAX_ERROR_BYTES: nat := 1024

  datatype Status = Pending | Running | Stuck | Failed | Done | Dead {
    predicate Terminal() { Done? || Dead? }

    /** The update is claimed by an owner under a lease. */
    predicate Held() { Running? || Stuck? }
  }

  /** Times are nanoseconds; `finished` is the rank of the stored text. */
  datatype Row = Row(
    status: Status,
    attempts: nat,
    failures: nat,
    owner: string,
    lease: Option<int>,
    finished: Option<int>)

  datatype Tables = Tables(next: int, confirmed: int, rows: map<int, Row>)

  /**
   The two renderings the database compares times by. `text(t)` is the position
   of the RFC 3339 text of `t` in the order of texts, which is not the order of
   times; `julian(t)` is SQLite's julianday, which keeps milliseconds only. No
   property is assumed of either.
   */
  datatype Clock = Clock(text: int -> int, julian: int -> int)

  datatype Error =
    | BadUpdate | BadOwner | BadThreshold | BadLease | BadTransition | BadOffset | BadCause
    | Checkpoint     // the guarded checkpoint update matched no row
    | NoLease        // a held row without a lease
    | NoClaim        // no running row of this owner
    | Storage        // the transaction failed or its commit was ambiguous

  datatype Disposition = Execute | AlreadyTerminal | Busy | DeadLetter

  datatype Reply =
    | Claimed(disposition: Disposition, attempts: nat, failures: nat)
    | Acknowledged
    | Recorded(dead: bool)
    | Pruned(doneRows: nat, deadRows: nat)

  datatype Outcome = Outcome(tables: Tables, reply: Result<Reply, Error>)

  /** What the storage layer does to one transaction. */
  datatype Fault = NoFault | RolledBack | CommitUnknown

  datatype Op =
    | Begin(id: int, owner: string, lease: int, limit: int)
    | Complete(id: int, next: int, owner: string)
    | Abort(id: int, owner: string)
    | Fail(id: int, next: int, owner: string, limit: int, causeBytes: nat, hold: Option<int>)
    | Confirm(offset: int)
    | Prune

  datatype Call = Call(op: Op, now: int, fault: Fault)

  function Refuse(t: Tables, e: Error): Outcome { Outcome(t, Err(e)) }

  predicate ValidOwner(owner: string) { 0 < |owner| <= MAX_OWNER_TOKEN_BYTES }

  /** Only an update whose successor is a representable offset can be acknowledged. */
  predicate ValidUpdate(id: int) { 0 <= id < MAX_INT }

  predicate ValidTransition(id: int, next: int) { ValidUpdate(id) && 0 < next && id == next - 1 }

  predicate CanAdvance(t: Tables, next: int) { t.confirmed <= next }

  function Advance(t: Tables, next: int): Tables
    requires CanAdvance(t, next)
  {
    t.(next := Max(t.next, next))
  }

  function DeadRow(c: Clock, row: Row, failures: nat, now: int): Row {
    row.(status := Dead, failures := failures, owner := "", lease := None, finished := Some(c.text(now)))
  }

  function DoneRow(c: Clock, row: Row, now: int): Row {
    row.(status := Done, owner := "", lease := None, finished := Some(c.text(now)))
  }

  function BeginAttempt(c: Clock, t: Tables, id: int, owner: string, lease: int, limit: int, now: int): Outcome {
    if !ValidUpdate(id) then Refuse(t, BadUpdate)
    else if !ValidOwner(owner) then Refuse(t, BadOwner)
    else if limit <= 0 then Refuse(t, BadThreshold)
    else if lease <= now then Refuse(t, BadLease)
    else if id !in t.rows then
      Outcome(t.(rows := t.rows[id := Row(Running, 1, 0, owner, Some(lease), None)]), Ok(Claimed(Execute, 1, 0)))
    else
      var row := t.rows[id];
      if row.status.Terminal() then
        var answer := if row.status.Done? then AlreadyTerminal else DeadLetter;
        if !CanAdvance(t, id + 1) then Refuse(t, Checkpoint)
        else Outcome(Advance(t, id + 1), Ok(Claimed(answer, row.attempts, row.failures)))
      else if row.status.Held() && row.lease.None? then Refuse(t, NoLease)
      else if row.status.Held() && now < row.lease.value then
        Outcome(t, Ok(Claimed(Busy, row.attempts, row.failures)))
      else
        var failures := if row.status.Running? then row.failures + 1 else row.failures;
        if row.status.Running? && limit <= failures then
          if !CanAdvance(t, id + 1) then Refuse(t, Checkpoint)
          else
            var buried := t.(rows := t.rows[id := DeadRow(c, row, failures, now)]);
            Outcome(Advance(buried, id + 1), Ok(Claimed(DeadLetter, row.attempts, failures)))
        else
          var claimed := Row(Running, row.attempts + 1, failures, owner, Some(lease), None);
          Outcome(t.(rows := t.rows[id := claimed]), Ok(Claimed(Execute, row.attempts + 1, failures)))
  }

  /** The guard `update_id = ? AND status = 'running' AND owner_token = ?`. */
  predicate OwnsClaim(t: Tables, id: int, owner: string) {
    id in t.rows && t.rows[id].status.Running? && t.rows[id].owner == owner
  }

  function CompleteAttempt(c: Clock, t: Tables, id: int, next: int, owner: string, now: int): Outcome {
    if !ValidTransition(id, next) then Refuse(t, BadTransition)
    else if !ValidOwner(owner) then Refuse(t, BadOwner)
    else if !OwnsClaim(t, id, owner) then Refuse(t, NoClaim)
    else if !CanAdvance(t, next) then Refuse(t, Checkpoint)
    else
      var done := t.(rows := t.rows[id := DoneRow(c, t.rows[id], now)]);
      Outcome(Advance(done, next), Ok(Acknowledged))
  }

  function AbortAttempt(t: Tables, id: int, owner: string): Outcome {
    if id < 0 then Refuse(t, BadUpdate)
    else if !ValidOwner(owner) then Refuse(t, BadOwner)
    else if !OwnsClaim(t, id, owner) then Refuse(t, NoClaim)
    else
      var released := t.rows[id].(status := Pending, owner := "", lease := None, finished := None);
      Outcome(t.(rows := t.rows[id := released]), Ok(Acknowledged))
  }

  function FailAttempt(c: Clock, t: Tables, id: int, next: int, owner: string, limit: int,
                       causeBytes: nat, hold: Option<int>, now: int): Outcome {
    if !ValidTransition(id, next) then Refuse(t, BadTransition)
    else if limit <= 0 then Refuse(t, BadThreshold)
    else if !ValidOwner(owner) then Refuse(t, BadOwner)
    else if MAX_ERROR_BYTES < causeBytes then Refuse(t, BadCause)
    else if !OwnsClaim(t, id, owner) then Refuse(t, NoClaim)
    else
      var row := t.rows[id];
      var failures := row.failures + 1;
      if limit <= failures then
        if !CanAdvance(t, next) then Refuse(t, Checkpoint)
        else
          var buried := t.(rows := t.rows[id := DeadRow(c, row, failures, now)]);
          Outcome(Advance(buried, next), Ok(Recorded(true)))
      else if hold.Some? && hold.value <= now then Refuse(t, BadLease)
      else
        var failed := if hold.Some?
                      then row.(status := Stuck, failures := failures, lease := hold, finished := None)
                      else row.(status := Failed, failures := failures, owner := "", lease := None, finished := None);
        Outcome(t.(rows := t.rows[id := failed]), Ok(Recorded(false)))
  }

  // ---- Maintenance statements ----

  /** A row below the confirmed offset whose update can never be delivered again. */
  predicate Abandonable(c: Clock, row: Row, now: int) {
    || row.status.Pending? || row.status.Failed?
    || (row.status.Held() && (row.lease.None? || c.julian(row.lease.value) <= c.julian(now)))
  }

  function AbandonableIds(c: Clock, t: Tables, now: int): set<int> {
    set id | id in t.rows && id < t.confirmed && Abandonable(c, t.rows[id], now)
  }

  function ById(t: Tables): Order { Order(map id | id in t.rows :: None, false) }

  function ByFinished(t: Tables, newestFirst: bool): Order {
    Order(map id | id in t.rows :: t.rows[id].finished, newestFirst)
  }

  function Reconcile(c: Clock, t: Tables, now: int): Tables {
    var batch := Leading(ById(t), AbandonableIds(c, t, now), PRUNE_BATCH_SIZE);
    t.(rows := map id | id in t.rows ::
         if id in batch then DeadRow(c, t.rows[id], t.rows[id].failures, now) else t.rows[id])
  }

  /** The terminal rows of one kind that the server can no longer redeliver. */
  function Settled(t: Tables, status: Status): set<int> {
    set id | id in t.rows && t.rows[id].status == status && id < t.confirmed
  }

  predicate Outdated(row: Row, cutoff: int) { row.finished.Some? && row.finished.value < cutoff }

  function PrunableIds(t: Tables, status: Status, limit: nat, cutoff: int): set<int> {
    var newest := Leading(ByFinished(t, true), Settled(t, status), limit);
    set id | id in Settled(t, status) && (Outdated(t.rows[id], cutoff) || id !in newest)
  }

  function PruneBatch(t: Tables, status: Status, limit: nat, cutoff: int): set<int> {
    Leading(ByFinished(t, false), PrunableIds(t, status, limit, cutoff), PRUNE_BATCH_SIZE)
  }

  function PruneTerminal(t: Tables, status: Status, limit: nat, cutoff: int): Tables {
    t.(rows := t.rows - PruneBatch(t, status, limit, cutoff))
  }

  function PruneDone(c: Clock, t: Tables, now: int): Tables {
    PruneTerminal(t, Done, DONE_RETENTION_LIMIT, c.text(now - DONE_RETENTION_AGE))
  }

  function PruneDead(c: Clock, t: Tables, now: int): Tables {
    PruneTerminal(t, Dead, DEAD_RETENTION_LIMIT, c.text(now - DEAD_RETENTION_AGE))
  }

  /** One pass of journal maintenance. */
  function Maintain(c: Clock, t: Tables, now: int): Tables {
    PruneDead(c, PruneDone(c, Reconcile(c, t, now), now), now)
  }

  function PruneJournal(c: Clock, t: Tables, now: int): Outcome {
    var reconciled := Reconcile(c, t, now);
    var undone := PruneDone(c, reconciled, now);
    Outcome(PruneDead(c, undone, now),
            Ok(Pruned(|PruneBatch(reconciled, Done, DONE_RETENTION_LIMIT, c.text(now - DONE_RETENTION_AGE))|,
                      |PruneBatch(undone, Dead, DEAD_RETENTION_LIMIT, c.text(now - DEAD_RETENTION_AGE))|)))
  }

  function ConfirmOffset(c: Clock, t: Tables, offset: int, now: int): Outcome {
    if offset < 0 || t.next < offset then Refuse(t, BadOffset)
    else if offset <= t.confirmed then Outcome(t, Ok(Acknowledged))
    else Outcome(Maintain(c, t.(confirmed := offset), now), Ok(Acknowledged))
  }

  // ---- Runs ----

  /** The transaction as designed, before the storage layer interferes. */
  function Intended(c: Clock, t: Tables, op: Op, now: int): Outcome {
    match op
    case Begin(id, owner, lease, limit) => BeginAttempt(c, t, id, owner, lease, limit, now)
    case Complete(id, next, owner) => CompleteAttempt(c, t, id, next, owner, now)
    case Abort(id, owner) => AbortAttempt(t, id, owner)
    case Fail(id, next, owner, limit, bytes, hold) => FailAttempt(c, t, id, next, owner, limit, bytes, hold, now)
    case Confirm(offset) => ConfirmOffset(c, t, offset, now)
    case Prune => PruneJournal(c, t, now)
  }

  /** A refused call changes nothing; an accepted one may still be lost, or commit and report an error. */
  function Transact(t: Tables, o: Outcome, fault: Fault): Outcome {
    if o.reply.Err? then Refuse(t, o.reply.error)
    else match fault
      case NoFault => o
      case RolledBack => Refuse(t, Storage)
      case CommitUnknown => Refuse(o.tables, Storage)
  }

  function Perform(c: Clock, t: Tables, call: Call): Outcome {
    Transact(t, Intended(c, t, call.op, call.now), call.fault)
  }

  function After(c: Clock, t: Tables, calls: seq<Call>): Tables
    decreases |calls|
  {
    if calls == [] then t
    else Perform(c, After(c, t, calls[..|calls| - 1]), calls[|calls| - 1]).tables
  }

  const EMPTY: Tables := Tables(0, 0, map[])

  /** The journal as an object: the checkpoint and the attempts table are updated in place. */
  class UpdateJournal {
    const clock: Clock
    var next: int
    var confirmed: int
    var rows: map<int, Row>

    constructor (clock: Clock)
      ensures this.clock == clock && Contents() == EMPTY
    {
      this.clock := clock;
      next, confirmed, rows := 0, 0, map[];
    }

    function Contents(): Tables
      reads this
    {
      Tables(next, confirmed, rows)
    }

    method BeginUpdateAttempt(id: int, owner: string, lease: int, limit: int, now: int, fault: Fault)
      returns (reply: Result<Reply, Error>)
      modifies this
      ensures Outcome(Contents(), reply)
           == Perform(clock, old(Contents()), Call(Begin(id, owner, lease, limit), now, fault))
    {
      if !ValidUpdate(id) { return Err(BadUpdate); }
      if !ValidOwner(owner) { return Err(BadOwner); }
      if limit <= 0 { return Err(BadThreshold); }
      if lease <= now { return Err(BadLease); }
      if id !in rows {
        if fault.RolledBack? { return Err(Storage); }
        rows := rows[id := Row(Running, 1, 0, owner, Some(lease), None)];
        return Committed(Claimed(Execute, 1, 0), fault);
      }
      var status, attempts, failures, held :=
        rows[id].status, rows[id].attempts, rows[id].failures, rows[id].lease;
      if status.Terminal() {
        if id + 1 < confirmed { return Err(Checkpoint); }
        if fault.RolledBack? { return Err(Storage); }
        next := if next < id + 1 then id + 1 else next;
        return Committed(Claimed(if status.Done? then AlreadyTerminal else DeadLetter, attempts, failures), fault);
      }
      if status.Held() {
        if held.None? { return Err(NoLease); }
        if now < held.value {
          if fault.RolledBack? { return Err(Storage); }
          return Committed(Claimed(Busy, attempts, failures), fault);
        }
      }
      if status.Running? {
        failures := failures + 1;
        if limit <= failures {
          if id + 1 < confirmed { return Err(Checkpoint); }
          if fault.RolledBack? { return Err(Storage); }
          rows := rows[id := DeadRow(clock, rows[id], failures, now)];
          next := if next < id + 1 then id + 1 else next;
          return Committed(Claimed(DeadLetter, attempts, failures), fault);
        }
      }
      if fault.RolledBack? { return Err(Storage); }
      attempts := attempts + 1;
      rows := rows[id := Row(Running, attempts, failures, owner, Some(lease), None)];
      reply := Committed(Claimed(Execute, attempts, failures), fault);
    }

    method CompleteUpdateAttempt(id: int, nextOffset: int, owner: string, now: int, fault: Fault)
      returns (reply: Result<Reply, Error>)
      modifies this
      ensures Outcome(Contents(), reply)
           == Perform(clock, old(Contents()), Call(Complete(id, nextOffset, owner), now, fault))
    {
      if !ValidTransition(id, nextOffset) { return Err(BadTransition); }
      if !ValidOwner(owner) { return Err(BadOwner); }
      if !OwnsClaim(Contents(), id, owner) { return Err(NoClaim); }
      if nextOffset < confirmed { return Err(Checkpoint); }
      if fault.RolledBack? { return Err(Storage); }
      rows := rows[id := DoneRow(clock, rows[id], now)];
      next := if next < nextOffset then nextOffset else next;
      reply := Committed(Acknowledged, fault);
    }

    method AbortUpdateAttempt(id: int, owner: string, now: int, fault: Fault)
      returns (reply: Result<Reply, Error>)
      modifies this`rows
      ensures Outcome(Contents(), reply)
           == Perform(clock, old(Contents()), Call(Abort(id, owner), now, fault))
    {
      if id < 0 { return Err(BadUpdate); }
      if !ValidOwner(owner) { return Err(BadOwner); }
      if !OwnsClaim(Contents(), id, owner) { return Err(NoClaim); }
      if fault.RolledBack? { return Err(Storage); }
      rows := rows[id := rows[id].(status := Pending, owner := "", lease := None, finished := None)];
      reply := Committed(Acknowledged, fault);
    }

    method FailUpdateAttempt(id: int, nextOffset: int, owner: string, limit: int, causeBytes: nat,
                             hold: Option<int>, now: int, fault: Fault)
      returns (reply: Result<Reply, Error>)
      modifies this
      ensures Outcome(Contents(), reply)
           == Perform(clock, old(Contents()), Call(Fail(id, nextOffset, owner, limit, causeBytes, hold), now, fault))
    {
      if !ValidTransition(id, nextOffset) { return Err(BadTransition); }
      if limit <= 0 { return Err(BadThreshold); }
      if !ValidOwner(owner) { return Err(BadOwner); }
      if MAX_ERROR_BYTES < causeBytes { return Err(BadCause); }
      if !OwnsClaim(Contents(), id, owner) { return Err(NoClaim); }
      var failures := rows[id].failures + 1;
      if limit <= failures {
        if nextOffset < confirmed { return Err(Checkpoint); }
        if fault.RolledBack? { return Err(Storage); }
        rows := rows[id := DeadRow(clock, rows[id], failures, now)];
        next := if next < nextOffset then nextOffset else next;
        return Committed(Recorded(true), fault);
      }
      var status, nextOwner, lease := Failed, "", None;
      if hold.Some? {
        if hold.value <= now { return Err(BadLease); }
        status, nextOwner, lease := Stuck, owner, hold;
      }
      if fault.RolledBack? { return Err(Storage); }
      rows := rows[id := rows[id].(status := status, failures := failures, owner := nextOwner,
                                   lease := lease, finished := None)];
      reply := Committed(Recorded(false), fault);
    }

    method ConfirmUpdateOffset(offset: int, now: int, fault: Fault) returns (reply: Result<Reply, Error>)
      modifies this`confirmed, this`rows
      ensures Outcome(Contents(), reply) == Perform(clock, old(Contents()), Call(Confirm(offset), now, fault))
    {
      if offset < 0 || next < offset { return Err(BadOffset); }
      if fault.RolledBack? { return Err(Storage); }
      if confirmed < offset {
        confirmed := offset;
        ReconcileAbandonedAttempts(now);
        var _ := PruneTerminalAttempts(Done, DONE_RETENTION_LIMIT, clock.text(now - DONE_RETENTION_AGE));
        var _ := PruneTerminalAttempts(Dead, DEAD_RETENTION_LIMIT, clock.text(now - DEAD_RETENTION_AGE));
      }
      reply := Committed(Acknowledged, fault);
    }

    method PruneTelegramUpdateJournal(now: int, fault: Fault) returns (reply: Result<Reply, Error>)
      modifies this`rows
      ensures Outcome(Contents(), reply) == Perform(clock, old(Contents()), Call(Prune, now, fault))
    {
      hide Leading, PrunableIds, PruneBatch, AbandonableIds, PruneTerminal, Reconcile;
      if fault.RolledBack? { return Err(Storage); }
      ReconcileAbandonedAttempts(now);
      var done := PruneTerminalAttempts(Done, DONE_RETENTION_LIMIT, clock.text(now - DONE_RETENTION_AGE));
      var dead := PruneTerminalAttempts(Dead, DEAD_RETENTION_LIMIT, clock.text(now - DEAD_RETENTION_AGE));
      reply := Committed(Pruned(done, dead), fault);
    }

    method ReconcileAbandonedAttempts(now: int)
      modifies this`rows
      ensures Contents() == Reconcile(clock, old(Contents()), now)
      ensures rows.Keys == old(rows).Keys
      ensures |set id | id in rows && rows[id] != old(rows)[id]| <= PRUNE_BATCH_SIZE
      ensures forall id | id in rows && rows[id] != old(rows)[id] ::
        rows[id].status.Dead? && !old(rows)[id].status.Terminal() && id < confirmed
    {
      LeadingSelects(ById(Contents()), AbandonableIds(clock, Contents(), now), PRUNE_BATCH_SIZE);
      var batch := Leading(ById(Contents()), AbandonableIds(clock, Contents(), now), PRUNE_BATCH_SIZE);
      rows := map id | id in rows ::
        if id in batch then DeadRow(clock, rows[id], rows[id].failures, now) else rows[id];
      ghost var changed := set id | id in rows && rows[id] != old(rows)[id];
      SubsetSize(changed, batch);
    }

    method PruneTerminalAttempts(status: Status, limit: nat, cutoff: int) returns (deleted: nat)
      modifies this`rows
      ensures Contents() == PruneTerminal(old(Contents()), status, limit, cutoff)
      ensures deleted == |PruneBatch(old(Contents()), status, limit, cutoff)| <= PRUNE_BATCH_SIZE
      ensures deleted == |old(rows).Keys - rows.Keys|
      ensures forall id | id in old(rows) && id !in rows :: old(rows)[id].status == status && id < confirmed
    {
      LeadingSelects(ByFinished(Contents(), false), PrunableIds(Contents(), status, limit, cutoff), PRUNE_BATCH_SIZE);
      var batch := PruneBatch(Contents(), status, limit, cutoff);
      assert rows.Keys - (rows - batch).Keys == batch;
      rows := rows - batch;
      deleted := |batch|;
    }

    static function Committed(reply: Reply, fault: Fault): Result<Reply, Error> {
      if fault.CommitUnknown? then Err(Storage) else Ok(reply)
    }
  }
}
