/**
 The body of the poll loop: claim one update, run its
 handler, record the verdict, and only then move the offset. Each method is tied
 to the steps of the protocol in `PollLoop`.
 */
module Poller {
  import opened Results
  import opened Journal
  import opened PollLoop

  /** What the surroundings do while one update is processed. */
  datatype Script = Script(
    lease: int, claimAt: int, claimFault: Fault,
    verdict: Verdict, hold: int, causeBytes: nat, decideAt: int, decideFault: Fault,
    releaseAt: int, releaseFault: Fault)

  /** The tables and, if the loop goes on, the next offset. */
  datatype Progress = Progress(tables: Tables, offset: Option<int>)

  function Processed(c: Clock, t: Tables, owner: string, offset: int, id: int, s: Script): Progress {
    if id < offset then Progress(t, Some(offset))
    else
      var claim := Perform(c, t, Call(Begin(id, owner, s.lease, MAX_HANDLER_FAILURES), s.claimAt, s.claimFault));
      match claim.reply
      case Ok(Claimed(Execute, _, _)) => Settled(c, claim.tables, owner, id, s)
      case Ok(Claimed(AlreadyTerminal, _, _)) => Progress(claim.tables, Some(id + 1))
      case Ok(Claimed(DeadLetter, _, _)) => Progress(claim.tables, Some(id + 1))
      case _ => Progress(claim.tables, None)
  }

  function Settled(c: Clock, t: Tables, owner: string, id: int, s: Script): Progress {
    var out := Perform(c, t, Call(Settlement(owner, id, s.verdict, s.hold, s.causeBytes), s.decideAt, s.decideFault));
    match s.verdict
    case Finished =>
      if out.reply.Ok? then Progress(out.tables, Some(id + 1))
      else Progress(Perform(c, out.tables, Call(Abort(id, owner), s.releaseAt, s.releaseFault)).tables, None)
    case HandlerError => Progress(out.tables, if out.reply == Ok(Recorded(true)) then Some(id + 1) else None)
    case _ => Progress(out.tables, None)
  }

  /** The protocol events one pass through the loop body can cause; those that do not apply change nothing. */
  function ProcessEvents(c: Clock, w: World, s: Script): World {
    AfterHandler(c, Step(c, w, Claim(s.lease, s.claimAt, s.claimFault)), s)
  }

  function AfterHandler(c: Clock, w: World, s: Script): World {
    var handled := Step(c, w, HandlerReturns(s.verdict));
    var decided := Step(c, handled, Decide(s.hold, s.causeBytes, s.decideAt, s.decideFault));
    Step(c, decided, Release(s.releaseAt, s.releaseFault))
  }

  /** World `w` shows this progress of generation `owner` with `rest` still to do. */
  predicate Shows(w: World, owner: string, p: Progress, rest: seq<int>) {
    && w.tables == p.tables
    && w.generation == if p.offset.None? then None
                       else Some(PollLoop.Generation(owner, p.offset.value, Claiming(rest)))
  }

  lemma HandlerPathFollowsProtocol(c: Clock, w: World, owner: string, offset: int, id: int, attempt: nat, rest: seq<int>,
                                   s: Script)
    requires w.generation == Some(PollLoop.Generation(owner, offset, Handling(id, attempt, rest)))
    ensures Shows(AfterHandler(c, w, s), owner, Settled(c, w.tables, owner, id, s), rest)
  {
    hide Perform;
    var handled := Step(c, w, HandlerReturns(s.verdict));
    assert handled == w.(returned := w.returned + [Return(id, attempt, s.verdict)],
      generation := Some(PollLoop.Generation(owner, offset, Deciding(id, attempt, rest, s.verdict))));
    VerdictFollowsProtocol(c, handled, owner, offset, id, attempt, rest, s);
  }

  lemma VerdictFollowsProtocol(c: Clock, w: World, owner: string, offset: int, id: int, attempt: nat, rest: seq<int>,
                               s: Script)
    requires w.generation == Some(PollLoop.Generation(owner, offset, Deciding(id, attempt, rest, s.verdict)))
    ensures var decided := Step(c, w, Decide(s.hold, s.causeBytes, s.decideAt, s.decideFault));
            Shows(Step(c, decided, Release(s.releaseAt, s.releaseFault)), owner, Settled(c, w.tables, owner, id, s), rest)
  {
    hide Perform;
  }

  /** The claim at the front of the batch, seen from outside. */
  lemma ClaimFollowsProtocol(c: Clock, w: World, owner: string, offset: int, todo: seq<int>, s: Script)
    requires w.generation == Some(PollLoop.Generation(owner, offset, Claiming(todo))) && todo != []
    ensures var claimed := Step(c, w, Claim(s.lease, s.claimAt, s.claimFault));
            var begin := Begin(todo[0], owner, s.lease, MAX_HANDLER_FAILURES);
            var claim := Perform(c, w.tables, Call(begin, s.claimAt, s.claimFault));
      if offset <= todo[0] && claim.reply.Ok? && claim.reply.value.Claimed? && claim.reply.value.disposition.Execute? then
        && claimed.tables == claim.tables
        && claimed.generation ==
             Some(PollLoop.Generation(owner, offset, Handling(todo[0], claim.reply.value.attempts, todo[1..])))
      else Shows(claimed, owner, Processed(c, w.tables, owner, offset, todo[0], s), todo[1..])
           && AfterHandler(c, claimed, s) == claimed
  {
    hide Perform, Settled, Conclude;
  }

  /** The loop body is exactly one stretch of the crash-recovery protocol. */
  lemma {:induction false} LoopBodyFollowsProtocol(c: Clock, w: World, owner: string, offset: int, todo: seq<int>, s: Script)
    requires w.generation == Some(PollLoop.Generation(owner, offset, Claiming(todo))) && todo != []
    ensures Shows(ProcessEvents(c, w, s), owner, Processed(c, w.tables, owner, offset, todo[0], s), todo[1..])
  {
    ClaimFollowsProtocol(c, w, owner, offset, todo, s);
    hide Perform, Settled, Step, AfterHandler;
    var claimed := Step(c, w, Claim(s.lease, s.claimAt, s.claimFault));
    if claimed.generation.Some? && claimed.generation.value.phase.Handling? {
      HandlerPathFollowsProtocol(c, claimed, owner, offset, todo[0], claimed.generation.value.phase.attempt, todo[1..], s);
    }
  }

  class Generation {
    const journal: UpdateJournal
    const owner: string
    var offset: int

    /** A generation starts from the durable checkpoint. */
    constructor (journal: UpdateJournal, owner: string)
      ensures this.journal == journal && this.owner == owner && offset == journal.next
    {
      this.journal := journal;
      this.owner := owner;
      offset := journal.next;
    }

    /** Completes, and after a failed or ambiguous completion gives the claim back. */
    method CompleteUpdateAttempt(id: int, s: Script) returns (ok: bool)
      modifies journal
      ensures var c := journal.clock;
              var out := Perform(c, old(journal.Contents()), Call(Complete(id, id + 1, owner), s.decideAt, s.decideFault));
              && ok == out.reply.Ok?
              && journal.Contents() == if ok then out.tables
                   else Perform(c, out.tables, Call(Abort(id, owner), s.releaseAt, s.releaseFault)).tables
    {
      var reply := journal.CompleteUpdateAttempt(id, id + 1, owner, s.decideAt, s.decideFault);
      ok := reply.Ok?;
      if !ok {
        var _ := journal.AbortUpdateAttempt(id, owner, s.releaseAt, s.releaseFault);
      }
    }

    method RecordUpdateFailure(id: int, hold: Option<int>, s: Script) returns (dead: Option<bool>)
      modifies journal
      ensures var out := Perform(journal.clock, old(journal.Contents()),
                Call(Fail(id, id + 1, owner, MAX_HANDLER_FAILURES, s.causeBytes, hold), s.decideAt, s.decideFault));
              && journal.Contents() == out.tables
              && dead == if out.reply.Ok? && out.reply.value.Recorded? then Some(out.reply.value.dead) else None
    {
      var reply := journal.FailUpdateAttempt(id, id + 1, owner, MAX_HANDLER_FAILURES, s.causeBytes, hold,
                                             s.decideAt, s.decideFault);
      dead := if reply.Ok? && reply.value.Recorded? then Some(reply.value.dead) else None;
    }

    /** One pass of the loop body; a generation that does not continue never polls again. */
    method Process(id: int, s: Script) returns (continues: bool)
      modifies this`offset, journal
      ensures Progress(journal.Contents(), if continues then Some(offset) else None)
           == Processed(journal.clock, old(journal.Contents()), owner, old(offset), id, s)
    {
      if id < offset { return true; }
      var reply := journal.BeginUpdateAttempt(id, owner, s.lease, MAX_HANDLER_FAILURES, s.claimAt, s.claimFault);
      if reply.Err? || !reply.value.Claimed? { return false; }
      match reply.value.disposition {
        case AlreadyTerminal | DeadLetter =>
          offset := id + 1;
          return true;
        case Busy =>
          return false;
        case Execute =>
      }
      match s.verdict {
        case StuckHandler =>
          var _ := RecordUpdateFailure(id, Some(s.hold), s);
          return false;
        case Cancelled =>
          var _ := journal.AbortUpdateAttempt(id, owner, s.decideAt, s.decideFault);
          return false;
        case Panicked =>
          var _ := RecordUpdateFailure(id, None, s);
          return false;
        case HandlerError =>
          var dead := RecordUpdateFailure(id, None, s);
          if dead != Some(true) { return false; }
        case Finished =>
          var ok := CompleteUpdateAttempt(id, s);
          if !ok { return false; }
      }
      offset := id + 1;
      continues := true;
    }
  }
}
