/**
 What each journal call means for one row, told from the tables before and after:
 which claims are answered how, what a settled claim leaves behind, and what a
 storage fault may hide.
 */
module JournalLaws {
  import opened Results
  import opened Journal
  import opened JournalSafety

  /** The part of a call the journal refuses before it looks at any row. */
  predicate ClaimArguments(id: int, owner: string, lease: int, limit: int, now: int) {
    0 <= id < MAX_INT && 1 <= |owner| <= 128 && 1 <= limit && now < lease
  }

  /** The row may be executed: nobody holds it, and one more lost lease would not exhaust its failures. */
  predicate Claimable(t: Tables, id: int, limit: int, now: int) {
    id in t.rows ==>
      var row := t.rows[id];
      || row.status.Pending? || row.status.Failed?
      || (row.status.Stuck? && row.lease.Some? && row.lease.value <= now)
      || (row.status.Running? && row.lease.Some? && row.lease.value <= now && row.failures + 1 < limit)
  }

  /** The owner vanished once too often. */
  predicate Exhausted(t: Tables, id: int, limit: int, now: int) {
    && id in t.rows && t.rows[id].status.Running?
    && t.rows[id].lease.Some? && t.rows[id].lease.value <= now && limit <= t.rows[id].failures + 1
  }

  predicate Answers(r: Result<Reply, Error>, d: Disposition) {
    r.Ok? && r.value.Claimed? && r.value.disposition == d
  }

  ghost predicate OthersUntouched(t: Tables, u: Tables, id: int) {
    && u.confirmed == t.confirmed
    && (forall k :: k != id ==> (k in u.rows <==> k in t.rows))
    && (forall k | k in t.rows && k != id :: u.rows[k] == t.rows[k])
  }

  /** A fault hides an answer, and either undoes the whole transaction or nothing of it. */
  lemma FaultsAreAllOrNothing(c: Clock, t: Tables, op: Op, now: int, fault: Fault)
    ensures var sound := Perform(c, t, Call(op, now, NoFault));
            var out := Perform(c, t, Call(op, now, fault));
      && out.tables == (if fault.RolledBack? then t else sound.tables)
      && (sound.reply.Err? ==> out == sound && out.tables == t)
      && (sound.reply.Ok? && !fault.NoFault? ==> out.reply == Err(Storage))
  {
    hide Intended;
  }

  /** Every claim is answered by the state of its row alone. */
  lemma ClaimsAnswer(c: Clock, t: Tables, id: int, owner: string, lease: int, limit: int, now: int)
    requires WellFormed(t)
    ensures var reply := Perform(c, t, Call(Begin(id, owner, lease, limit), now, NoFault)).reply;
            var ok := ClaimArguments(id, owner, lease, limit, now);
            var behind := t.confirmed <= id + 1;
      && (Answers(reply, Execute) <==> ok && Claimable(t, id, limit, now))
      && (Answers(reply, Busy) <==> ok && id in t.rows && (t.rows[id].status.Running? || t.rows[id].status.Stuck?)
                                    && t.rows[id].lease.Some? && now < t.rows[id].lease.value)
      && (Answers(reply, AlreadyTerminal) <==> ok && id in t.rows && t.rows[id].status.Done? && behind)
      && (Answers(reply, DeadLetter) <==>
            ok && behind && ((id in t.rows && t.rows[id].status.Dead?) || Exhausted(t, id, limit, now)))
      && (reply.Ok? ==> reply.value.Claimed?)
  {
  }

  /** What a claim leaves behind: one more attempt under the new lease, one more failure if an owner vanished. */
  lemma ClaimsLeave(c: Clock, t: Tables, id: int, owner: string, lease: int, limit: int, now: int)
    requires WellFormed(t)
    ensures var out := Perform(c, t, Call(Begin(id, owner, lease, limit), now, NoFault));
            var attempts := if id in t.rows then t.rows[id].attempts else 0;
            var failures := if id in t.rows then t.rows[id].failures else 0;
            var lost := if id in t.rows && t.rows[id].status.Running? then 1 else 0;
      && OthersUntouched(t, out.tables, id)
      && (Answers(out.reply, Execute) ==>
            && id in out.tables.rows && out.tables.next == t.next
            && out.reply.value == Claimed(Execute, attempts + 1, failures + lost)
            && out.tables.rows[id] == Row(Running, attempts + 1, failures + lost, owner, Some(lease), None))
      && (Answers(out.reply, DeadLetter) || Answers(out.reply, AlreadyTerminal) ==>
            && id in t.rows && id in out.tables.rows
            && out.tables.next == (if t.next < id + 1 then id + 1 else t.next)
            && out.reply.value.attempts == attempts && out.reply.value.failures == failures + lost
            && (lost == 0 ==> out.tables.rows[id] == t.rows[id])
            && (lost == 1 ==> out.tables.rows[id] == Row(Dead, attempts, failures + 1, "", None, Some(c.text(now)))))
      && (Answers(out.reply, Busy) ==> out.reply.value == Claimed(Busy, attempts, failures) && out.tables == t)
  {
  }

  /** The caller runs the update right now. */
  predicate Holds(t: Tables, id: int, owner: string) {
    id in t.rows && t.rows[id].status.Running? && t.rows[id].owner == owner
  }

  predicate SettleArguments(id: int, next: int, owner: string) {
    0 <= id < MAX_INT && next == id + 1 && 1 <= |owner| <= 128
  }

  /** Completion takes the claim, makes the row done and moves the offset past it, or changes nothing. */
  lemma CompletionLaw(c: Clock, t: Tables, id: int, next: int, owner: string, now: int)
    ensures var out := Perform(c, t, Call(Complete(id, next, owner), now, NoFault));
      && (out.reply.Ok? <==> SettleArguments(id, next, owner) && Holds(t, id, owner) && t.confirmed <= id + 1)
      && (out.reply.Err? ==> out.tables == t)
      && (out.reply.Ok? ==>
            && OthersUntouched(t, out.tables, id) && id in out.tables.rows
            && out.tables.rows[id] == Row(Done, t.rows[id].attempts, t.rows[id].failures, "", None, Some(c.text(now)))
            && out.tables.next == (if t.next < id + 1 then id + 1 else t.next))
  {
  }

  /** An abort gives the claim back at no cost, or changes nothing. */
  lemma AbortLaw(c: Clock, t: Tables, id: int, owner: string, now: int)
    ensures var out := Perform(c, t, Call(Abort(id, owner), now, NoFault));
      && (out.reply.Ok? <==> 0 <= id && 1 <= |owner| <= 128 && Holds(t, id, owner))
      && (out.reply.Err? ==> out.tables == t)
      && (out.reply.Ok? ==>
            && OthersUntouched(t, out.tables, id) && out.tables.next == t.next && id in out.tables.rows
            && out.tables.rows[id] == Row(Pending, t.rows[id].attempts, t.rows[id].failures, "", None, None))
  {
  }

  /** A failure costs exactly one, and closes the update exactly when that exhausts the threshold. */
  lemma FailureLaw(c: Clock, t: Tables, id: int, next: int, owner: string, limit: int, bytes: nat, hold: Option<int>,
                   now: int)
    ensures var out := Perform(c, t, Call(Fail(id, next, owner, limit, bytes, hold), now, NoFault));
            var ok := SettleArguments(id, next, owner) && 1 <= limit && bytes <= 1024 && Holds(t, id, owner);
      && (out.reply == Ok(Recorded(true)) <==> ok && limit <= t.rows[id].failures + 1 && t.confirmed <= id + 1)
      && (out.reply == Ok(Recorded(false)) <==>
            ok && t.rows[id].failures + 1 < limit && (hold.Some? ==> now < hold.value))
      && (out.reply.Ok? ==> out.reply.value.Recorded?)
      && (out.reply.Err? ==> out.tables == t)
      && (out.reply.Ok? ==>
            var row := t.rows[id];
            && OthersUntouched(t, out.tables, id) && id in out.tables.rows
            && out.tables.next == (if out.reply.value.dead && t.next < id + 1 then id + 1 else t.next)
            && out.tables.rows[id] == (
                 if out.reply.value.dead then Row(Dead, row.attempts, row.failures + 1, "", None, Some(c.text(now)))
                 else if hold.Some? then Row(Stuck, row.attempts, row.failures + 1, owner, hold, None)
                 else Row(Failed, row.attempts, row.failures + 1, "", None, None)))
  {
  }
}
