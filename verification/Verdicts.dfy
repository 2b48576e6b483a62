/**
 How the end of a handler decides the end of its update, over every run of the poll
 loop. Rows are compared before and after each event.
 */
module Verdicts {
  import opened Results
  import opened Journal
  import opened JournalSafety
  import opened JournalLaws
  import opened Retention
  import opened PollLoop

  // ---- Only finished handlers complete updates ----

  ghost predicate HadFinished(returned: seq<Return>, id: int) {
    exists attempt: nat :: Return(id, attempt, Finished) in returned
  }

  /** Every done row belongs to an execution whose handler finished. */
  ghost predicate DoneIsFinished(w: World) {
    && (forall id | id in w.tables.rows && w.tables.rows[id].status.Done? ::
          Return(id, w.tables.rows[id].attempts, Finished) in w.returned)
    && (forall id | id in w.completions :: HadFinished(w.returned, id))
  }

  /** The row of the update being executed is this execution's claim, unless maintenance took it away. */
  predicate ClaimStands(t: Tables, owner: string, id: int, attempt: nat) {
    && ValidOwner(owner) && ValidUpdate(id)
    && (id in t.rows ==>
          var row := t.rows[id];
          row.attempts == attempt && (row.status.Dead? || (row.status.Running? && row.owner == owner)))
  }

  predicate ExecutionInv(w: World) {
    w.generation.Some? ==>
      var g := w.generation.value;
      match g.phase
      case Handling(id, attempt, _) => ClaimStands(w.tables, g.owner, id, attempt)
      case Deciding(id, attempt, _, verdict) =>
        ClaimStands(w.tables, g.owner, id, attempt) && Return(id, attempt, verdict) in w.returned
      case _ => true
  }

  lemma LogKeepsDone(c: Clock, w: World, call: Call)
    requires WellFormed(w.tables) && DoneIsFinished(w)
    requires call.op.Complete? && Holds(w.tables, call.op.id, call.op.owner) ==>
      Return(call.op.id, w.tables.rows[call.op.id].attempts, Finished) in w.returned
    ensures DoneIsFinished(Log(w, call, Perform(c, w.tables, call).tables))
  {
    CallHasEffect(c, w.tables, call);
    FaultsAreAllOrNothing(c, w.tables, call.op, call.now, call.fault);
    if call.op.Complete? {
      CompletionLaw(c, w.tables, call.op.id, call.op.next, call.op.owner, call.now);
    }
    hide Perform;
    var u := Perform(c, w.tables, call).tables;
    forall id | id in u.rows && u.rows[id].status.Done?
      ensures Return(id, u.rows[id].attempts, Finished) in w.returned
    {
      if !NewlyDone(w.tables, u, id) { assert w.tables.rows[id].status.Terminal(); }
    }
  }

  lemma MaintenanceKeepsClaim(c: Clock, t: Tables, call: Call, owner: string, id: int, attempt: nat)
    requires call.op.Prune? && ClaimStands(t, owner, id, attempt)
    ensures ClaimStands(Perform(c, t, call).tables, owner, id, attempt)
  {
    hide Intended;
    MaintenanceSweeps(c, t, call.op, call.now);
  }

  lemma ClaimStarts(c: Clock, t: Tables, call: Call)
    requires WellFormed(t) && call.op.Begin?
    requires Answers(Perform(c, t, call).reply, Execute)
    ensures ClaimStands(Perform(c, t, call).tables, call.op.owner, call.op.id, Perform(c, t, call).reply.value.attempts)
  {
  }

  lemma DecidingKeepsDone(c: Clock, w: World, g: Generation, e: Event)
    requires Inv(w) && DoneIsFinished(w) && ExecutionInv(w)
    requires w.generation == Some(g) && g.phase.Deciding? && e.Decide?
    ensures DoneIsFinished(GenerationStep(c, w, g, e)) && ExecutionInv(GenerationStep(c, w, g, e))
  {
    var p := g.phase;
    var op := Settlement(g.owner, p.id, p.verdict, e.hold, e.causeBytes);
    LogKeepsDone(c, w, Call(op, e.now, e.fault));
    hide Perform, Log, DoneIsFinished;
    DoneAcross(Log(w, Call(op, e.now, e.fault), Perform(c, w.tables, Call(op, e.now, e.fault)).tables));
  }

  lemma DoneAcross(w: World)
    requires DoneIsFinished(w)
    ensures forall g :: DoneIsFinished(w.(generation := g))
  {
  }

  lemma ClaimingKeepsDone(c: Clock, w: World, g: Generation, e: Event)
    requires Inv(w) && DoneIsFinished(w) && w.generation == Some(g) && g.phase.Claiming? && e.Claim?
    ensures DoneIsFinished(GenerationStep(c, w, g, e)) && ExecutionInv(GenerationStep(c, w, g, e))
  {
    var todo := g.phase.todo;
    DoneAcross(w);
    if todo != [] {
      var call := Call(Begin(todo[0], g.owner, e.lease, MAX_HANDLER_FAILURES), e.now, e.fault);
      LogKeepsDone(c, w, call);
      if Answers(Perform(c, w.tables, call).reply, Execute) { ClaimStarts(c, w.tables, call); }
      hide Perform, DoneIsFinished;
      DoneAcross(Log(w, call, Perform(c, w.tables, call).tables));
    }
  }

  lemma MaintainKeepsDone(c: Clock, w: World, e: Event)
    requires Inv(w) && DoneIsFinished(w) && ExecutionInv(w) && e.MaintainJournal?
    ensures DoneIsFinished(Step(c, w, e)) && ExecutionInv(Step(c, w, e))
  {
    var call := Call(Prune, e.now, e.fault);
    LogKeepsDone(c, w, call);
    if w.generation.Some? {
      var g := w.generation.value;
      if g.phase.Handling? || g.phase.Deciding? {
        MaintenanceKeepsClaim(c, w.tables, call, g.owner, g.phase.id, g.phase.attempt);
      }
    }
    hide Perform, ClaimStands, DoneIsFinished;
  }

  lemma OtherwiseKeepsDone(c: Clock, w: World, g: Generation, e: Event)
    requires Inv(w) && DoneIsFinished(w) && ExecutionInv(w) && w.generation == Some(g)
    requires !e.Claim? && !e.Decide?
    ensures DoneIsFinished(GenerationStep(c, w, g, e)) && ExecutionInv(GenerationStep(c, w, g, e))
  {
    if g.phase.Received? && e.ConfirmPoll? {
      LogKeepsDone(c, w, Call(Confirm(g.offset), e.now, e.fault));
    }
    if g.phase.Releasing? && e.Release? {
      LogKeepsDone(c, w, Call(Abort(g.phase.id, g.owner), e.now, e.fault));
    }
    hide Perform;
  }

  lemma GenerationKeepsDone(c: Clock, w: World, g: Generation, e: Event)
    requires Inv(w) && DoneIsFinished(w) && ExecutionInv(w) && w.generation == Some(g)
    ensures DoneIsFinished(GenerationStep(c, w, g, e)) && ExecutionInv(GenerationStep(c, w, g, e))
  {
    OtherwiseIdle(c, w, g, e);
    hide Inv, DoneIsFinished, ExecutionInv;
    if g.phase.Claiming? && e.Claim? {
      ClaimingKeepsDone(c, w, g, e);
    } else if g.phase.Deciding? && e.Decide? {
      DecidingKeepsDone(c, w, g, e);
    } else if !e.Claim? && !e.Decide? {
      OtherwiseKeepsDone(c, w, g, e);
    }
  }

  lemma LifecycleKeepsDone(c: Clock, w: World, e: Event)
    requires DoneIsFinished(w) && ExecutionInv(w) && (e.Arrive? || e.Expire? || e.Start? || e.Crash?)
    ensures DoneIsFinished(Step(c, w, e)) && ExecutionInv(Step(c, w, e))
  {
  }

  lemma StepKeepsDone(c: Clock, w: World, e: Event)
    requires Inv(w) && DoneIsFinished(w) && ExecutionInv(w)
    ensures DoneIsFinished(Step(c, w, e)) && ExecutionInv(Step(c, w, e))
  {
    match e {
      case MaintainJournal(_, _) => MaintainKeepsDone(c, w, e);
      case Arrive(_) => LifecycleKeepsDone(c, w, e);
      case Expire(_) => LifecycleKeepsDone(c, w, e);
      case Start(_) => LifecycleKeepsDone(c, w, e);
      case Crash => LifecycleKeepsDone(c, w, e);
      case _ =>
        hide GenerationStep, Inv, DoneIsFinished, ExecutionInv;
        if w.generation.Some? { GenerationKeepsDone(c, w, w.generation.value, e); }
    }
  }

  lemma {:induction false} RunKeepsDone(c: Clock, events: seq<Event>)
    ensures DoneIsFinished(Run(c, events)) && ExecutionInv(Run(c, events))
    decreases |events|
  {
    if events != [] {
      RunKeepsInv(c, events[..|events| - 1]);
      RunKeepsDone(c, events[..|events| - 1]);
      hide Step, Inv, DoneIsFinished, ExecutionInv;
      StepKeepsDone(c, Run(c, events[..|events| - 1]), events[|events| - 1]);
    }
  }

  /** A recorded return is an event of the run: the handler of that execution came back with that verdict. */
  lemma {:induction false} ReturnsAreEvents(c: Clock, events: seq<Event>, r: Return) returns (i: nat)
    requires r in Run(c, events).returned
    ensures i < |events| && events[i] == HandlerReturns(r.verdict)
    ensures var g := Run(c, events[..i]).generation;
      g.Some? && g.value.phase.Handling? && g.value.phase.id == r.id && g.value.phase.attempt == r.attempt
    decreases |events|
  {
    hide Step;
    var most := events[..|events| - 1];
    if r in Run(c, most).returned {
      i := ReturnsAreEvents(c, most, r);
      assert events[..i] == most[..i];
    } else {
      i := |most|;
      ReturnedByEvent(c, Run(c, most), events[i], r);
    }
  }

  lemma ReturnedByEvent(c: Clock, w: World, e: Event, r: Return)
    requires r !in w.returned && r in Step(c, w, e).returned
    ensures e == HandlerReturns(r.verdict) && w.generation.Some? && w.generation.value.phase.Handling?
    ensures w.generation.value.phase.id == r.id && w.generation.value.phase.attempt == r.attempt
  {
    hide Perform;
  }

  /**
   An update is done only because a handler finished it: whoever entered done had a handler that came back
   without an error, and a done row belongs to the very attempt that handler executed.
   */
  lemma CompletedUpdatesFinished(c: Clock, events: seq<Event>, id: int)
    ensures var w := Run(c, events);
      && (id in w.completions ==> HadFinished(w.returned, id))
      && (id in w.tables.rows && w.tables.rows[id].status.Done? ==>
            Return(id, w.tables.rows[id].attempts, Finished) in w.returned)
  {
    RunKeepsDone(c, events);
  }

  // ---- Every verdict has its own consequence ----

  predicate Fails(verdict: Verdict) { verdict.StuckHandler? || verdict.Panicked? || verdict.HandlerError? }

  /** The decision can be written down: the claim still stands, and its arguments are in order. */
  predicate Accepted(t: Tables, id: int, verdict: Verdict, hold: int, causeBytes: nat, now: int) {
    && id in t.rows && t.rows[id].status.Running?
    && (Fails(verdict) ==> causeBytes <= 1024)
    && (verdict.StuckHandler? && t.rows[id].failures < 2 ==> now < hold)
  }

  /** The row a verdict leaves: the third failure closes the update, a stuck handler keeps it under a lease. */
  predicate Decided(c: Clock, before: Row, after: Row, verdict: Verdict, hold: int, now: int) {
    && after.attempts == before.attempts
    && after.failures == (if Fails(verdict) then before.failures + 1 else before.failures)
    && (after.status.Done? <==> verdict.Finished?)
    && (after.status.Pending? <==> verdict.Cancelled?)
    && (after.status.Dead? <==> Fails(verdict) && 3 <= after.failures)
    && (after.status.Stuck? <==> verdict.StuckHandler? && after.failures < 3)
    && (after.status.Failed? <==> (verdict.Panicked? || verdict.HandlerError?) && after.failures < 3)
    && (if after.status.Stuck? then after.owner == before.owner && after.lease == Some(hold)
        else after.owner == "" && after.lease == None)
    && after.finished == (if after.status.Done? || after.status.Dead? then Some(c.text(now)) else None)
  }

  /** The tables once a decision was written down. */
  ghost predicate Writes(c: Clock, t: Tables, u: Tables, id: int, verdict: Verdict, hold: int, now: int) {
    && id in t.rows && id in u.rows && OthersUntouched(t, u, id)
    && Decided(c, t.rows[id], u.rows[id], verdict, hold, now)
    && u.next == (if u.rows[id].status.Terminal() && t.next <= id then id + 1 else t.next)
  }

  lemma DecisionWrites(c: Clock, t: Tables, owner: string, id: int, attempt: nat, verdict: Verdict, hold: int,
                       causeBytes: nat, now: int)
    requires ClaimStands(t, owner, id, attempt) && t.confirmed <= id
    ensures var out := Perform(c, t, Call(Settlement(owner, id, verdict, hold, causeBytes), now, NoFault));
      && (out.reply.Ok? <==> Accepted(t, id, verdict, hold, causeBytes, now))
      && (if out.reply.Ok? then Writes(c, t, out.tables, id, verdict, hold, now) else out.tables == t)
      && (Fails(verdict) && out.reply.Ok? ==> out.reply == Ok(Recorded(out.tables.rows[id].status.Dead?)))
  {
    match Settlement(owner, id, verdict, hold, causeBytes) {
      case Complete(_, next, _) => CompletionLaw(c, t, id, next, owner, now);
      case Abort(_, _) => AbortLaw(c, t, id, owner, now);
      case Fail(_, next, _, limit, bytes, lease) => FailureLaw(c, t, id, next, owner, limit, bytes, lease, now);
    }
    hide Perform;
  }

  /**
   What a decision does to the row and to the generation. Only a finished handler makes the row done; an
   error, a panic or a stuck handler costs one failure; a cancelled one costs nothing. The loop goes on only
   past a completed update, or past one whose ordinary error exhausted the threshold.
   */
  lemma DecisionDecides(c: Clock, w: World, g: Generation, hold: int, causeBytes: nat, now: int, fault: Fault)
    requires Inv(w) && ExecutionInv(w) && w.generation == Some(g) && g.phase.Deciding?
    ensures var p := g.phase;
            var v := Step(c, w, Decide(hold, causeBytes, now, fault));
            var written := Accepted(w.tables, p.id, p.verdict, hold, causeBytes, now) && !fault.RolledBack?;
      && (if written then Writes(c, w.tables, v.tables, p.id, p.verdict, hold, now) else v.tables == w.tables)
      && v.generation == (
           if written && fault.NoFault?
              && (p.verdict.Finished? || (p.verdict.HandlerError? && v.tables.rows[p.id].status.Dead?))
           then Some(Generation(g.owner, p.id + 1, Claiming(p.todo)))
           else if p.verdict.Finished? then Some(Generation(g.owner, g.offset, Releasing(p.id)))
           else None)
  {
    var p := g.phase;
    var op := Settlement(g.owner, p.id, p.verdict, hold, causeBytes);
    assert p.id in Batch(p);
    DecisionWrites(c, w.tables, g.owner, p.id, p.attempt, p.verdict, hold, causeBytes, now);
    FaultsAreAllOrNothing(c, w.tables, op, now, fault);
    hide Perform, Settlement, Writes, Inv, ClaimStands, Accepted;
  }

  /** The same for every decision of every run. */
  lemma EveryDecisionDecides(c: Clock, events: seq<Event>, g: Generation, hold: int, causeBytes: nat, now: int, fault: Fault)
    requires Run(c, events).generation == Some(g) && g.phase.Deciding?
    ensures var w, p := Run(c, events), g.phase;
            var v := Step(c, w, Decide(hold, causeBytes, now, fault));
            var written := Accepted(w.tables, p.id, p.verdict, hold, causeBytes, now) && !fault.RolledBack?;
      && Return(p.id, p.attempt, p.verdict) in w.returned
      && (p.id in w.tables.rows ==> w.tables.rows[p.id].attempts == p.attempt)
      && (if written then Writes(c, w.tables, v.tables, p.id, p.verdict, hold, now) else v.tables == w.tables)
      && (v.generation.Some? && v.generation.value.phase.Claiming? <==>
            && written && fault.NoFault?
            && (p.verdict.Finished? || (p.verdict.HandlerError? && v.tables.rows[p.id].status.Dead?)))
  {
    RunKeepsInv(c, events);
    RunKeepsDone(c, events);
    DecisionDecides(c, Run(c, events), g, hold, causeBytes, now, fault);
    hide Run, Step, Inv;
  }

  // ---- The other journal calls of a generation ----

  /** The update is closed, or this claim closes it. */
  predicate Passed(t: Tables, id: int, now: int) {
    (id in t.rows && (t.rows[id].status.Done? || t.rows[id].status.Dead?)) || Exhausted(t, id, 3, now)
  }

  lemma ClaimIsAnswered(c: Clock, t: Tables, id: int, owner: string, lease: int, now: int, fault: Fault)
    requires WellFormed(t) && t.confirmed <= id
    ensures var out := Perform(c, t, Call(Begin(id, owner, lease, MAX_HANDLER_FAILURES), now, fault));
            var ok := fault.NoFault? && ClaimArguments(id, owner, lease, 3, now);
      && (Answers(out.reply, Execute) <==> ok && Claimable(t, id, 3, now))
      && (Answers(out.reply, AlreadyTerminal) || Answers(out.reply, DeadLetter) <==> ok && Passed(t, id, now))
      && (Answers(out.reply, Execute) ==> out.reply.value.attempts == 1 + if id in t.rows then t.rows[id].attempts else 0)
      && (out.reply.Ok? ==> out.reply.value.Claimed?)
      && OthersUntouched(t, out.tables, id) && out.tables.next in {t.next, id + 1}
  {
    FaultsAreAllOrNothing(c, t, Begin(id, owner, lease, MAX_HANDLER_FAILURES), now, fault);
    ClaimsAnswer(c, t, id, owner, lease, MAX_HANDLER_FAILURES, now);
    ClaimsLeave(c, t, id, owner, lease, MAX_HANDLER_FAILURES, now);
    hide Perform, ClaimArguments, Claimable, Exhausted, WellFormed;
  }

  /** What a claim makes of the generation: it executes, goes on past a closed update, or ends. */
  lemma ClaimDecides(c: Clock, w: World, g: Generation, todo: seq<int>, lease: int, now: int, fault: Fault)
    requires Inv(w) && w.generation == Some(g) && g.phase == Claiming(todo) && todo != []
    ensures var id, v := todo[0], Step(c, w, Claim(lease, now, fault));
            var ok := fault.NoFault? && ClaimArguments(id, g.owner, lease, 3, now);
            var attempts := if id in w.tables.rows then w.tables.rows[id].attempts else 0;
      && v.generation == (
           if ok && Claimable(w.tables, id, 3, now)
           then Some(Generation(g.owner, g.offset, Handling(id, attempts + 1, todo[1..])))
           else if ok && Passed(w.tables, id, now) then Some(Generation(g.owner, id + 1, Claiming(todo[1..])))
           else None)
      && OthersUntouched(w.tables, v.tables, id) && v.tables.next in {w.tables.next, id + 1}
  {
    var call := Call(Begin(todo[0], g.owner, lease, MAX_HANDLER_FAILURES), now, fault);
    FrontIsClaimed(c, w, g, todo, Claim(lease, now, fault));
    ClaimIsAnswered(c, w.tables, todo[0], g.owner, lease, now, fault);
    hide Perform, Inv, Step, ClaimArguments, Claimable, Passed, OthersUntouched;
    assert ClaimFront(c, w, g, todo, call).tables == Perform(c, w.tables, call).tables;
  }

  lemma FrontIsClaimed(c: Clock, w: World, g: Generation, todo: seq<int>, e: Event)
    requires Inv(w) && w.generation == Some(g) && g.phase == Claiming(todo) && todo != [] && e.Claim?
    ensures Step(c, w, e)
         == ClaimFront(c, w, g, todo, Call(Begin(todo[0], g.owner, e.lease, MAX_HANDLER_FAILURES), e.now, e.fault))
    ensures WellFormed(w.tables) && w.tables.confirmed <= todo[0]
  {
    hide ClaimFront;
    assert todo[0] in Batch(g.phase);
  }

  /** A claim whose completion reported an error is given back at no cost, unless it was committed after all. */
  lemma ReleaseGivesBack(c: Clock, w: World, g: Generation, id: int, now: int, fault: Fault)
    requires w.generation == Some(g) && g.phase == Releasing(id)
    ensures var v := Step(c, w, Release(now, fault));
      && v.generation == None
      && (if 0 <= id && ValidOwner(g.owner) && Holds(w.tables, id, g.owner) && !fault.RolledBack?
          then Writes(c, w.tables, v.tables, id, Cancelled, 0, now) else v.tables == w.tables)
  {
    FaultsAreAllOrNothing(c, w.tables, Abort(id, g.owner), now, fault);
    AbortLaw(c, w.tables, id, g.owner, now);
    hide Perform;
  }

  /** Before a batch is looked at, the offset it was polled with is confirmed durably. */
  lemma PollIsConfirmed(c: Clock, w: World, g: Generation, batch: seq<int>, now: int, fault: Fault)
    requires Inv(w) && w.generation == Some(g) && g.phase == Received(batch)
    ensures var v := Step(c, w, ConfirmPoll(now, fault));
      && v.generation == (if fault.NoFault? then Some(Generation(g.owner, g.offset, Claiming(batch))) else None)
      && v.tables.next == w.tables.next
      && v.tables.confirmed == (if fault.RolledBack? then w.tables.confirmed else g.offset)
  {
    FaultsAreAllOrNothing(c, w.tables, Confirm(g.offset), now, fault);
    ConfirmationLaw(c, w.tables, g.offset, now);
    MaintainSweeps(c, Tables(w.tables.next, g.offset, w.tables.rows), now);
    hide Perform, Maintain;
  }
}
