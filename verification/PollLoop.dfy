/**
 The poll loop and the journal as one crash-recovery protocol: an update server,
 the durable tables, and at most one volatile generation of the poller. A run is
 any sequence of events; a generation can die between any two of them.
 */
module PollLoop {
  import opened Results
  import opened Journal
  import opened JournalSafety

  const MAX_HANDLER_FAILURES: int := 3

  /** How the handler of one update ended, in the order the loop tests for it. */
  datatype Verdict = StuckHandler | Cancelled | Panicked | HandlerError | Finished

  datatype Phase =
    | Polling
    | Received(batch: seq<int>)
    | Claiming(todo: seq<int>)
    | Handling(id: int, attempt: nat, todo: seq<int>)
    | Deciding(id: int, attempt: nat, todo: seq<int>, verdict: Verdict)
    | Releasing(id: int)

  /** One execution of an update, and how it ended. */
  datatype Return = Return(id: int, attempt: nat, verdict: Verdict)

  datatype Generation = Generation(owner: string, offset: int, phase: Phase)

  /**
   `issued` are the updates the server ever had, `pending` those it still holds
   and `expired` those it gave up by itself. `retired`, `completions` and
   `abandoned` record what the journal did: rows deleted, rows entering done,
   and unfinished rows closed by maintenance. `returned` are the handlers that
   came back.
   */
  datatype World = World(
    issued: set<int>,
    pending: set<int>,
    expired: set<int>,
    tables: Tables,
    retired: set<int>,
    completions: multiset<int>,
    abandoned: set<int>,
    returned: seq<Return>,
    generation: Option<Generation>)

  datatype Event =
    | Arrive(id: int)
    | Expire(id: int)
    | Start(owner: string)
    | Crash
    | PollFails(reachedServer: bool)
    | PollReturns(updates: seq<int>)
    | ConfirmPoll(now: int, fault: Fault)
    | Claim(lease: int, now: int, fault: Fault)
    | HandlerReturns(verdict: Verdict)
    | Decide(hold: int, causeBytes: nat, now: int, fault: Fault)
    | Release(now: int, fault: Fault)
    | MaintainJournal(now: int, fault: Fault)

  const START: World := World({}, {}, {}, EMPTY, {}, multiset{}, {}, [], None)

  // ---- The server ----

  /** `getUpdates(offset)` acknowledges, and forgets, every smaller id. */
  function Forget(pending: set<int>, offset: int): set<int> {
    set id | id in pending && offset <= id
  }

  predicate Ascending(s: seq<int>) {
    forall i, j | 0 <= i < j < |s| :: s[i] < s[j]
  }

  /** The reply starts at the smallest pending update and skips none. */
  predicate HonestReply(pending: set<int>, offset: int, updates: seq<int>) {
    var unseen := Unseen(updates, offset);
    && Ascending(unseen)
    && (forall id | id in unseen :: id in pending)
    && (forall id, later | id in pending && offset <= id && later in unseen && id < later :: id in unseen)
  }

  function Unseen(updates: seq<int>, offset: int): seq<int> {
    if updates == [] then []
    else if updates[0] < offset then Unseen(updates[1..], offset)
    else [updates[0]] + Unseen(updates[1..], offset)
  }

  /** A reply holding an id without a valid successor is rejected as a whole. */
  predicate ValidReply(updates: seq<int>) {
    forall i | 0 <= i < |updates| :: ValidUpdate(updates[i])
  }

  /** The kept updates are those at the positions `at`: all that are not below the offset, in their order. */
  predicate KeptAt(updates: seq<int>, offset: int, kept: seq<int>, at: seq<nat>) {
    && |at| == |kept|
    && (forall k | 0 <= k < |at| :: at[k] < |updates| && updates[at[k]] == kept[k] && offset <= kept[k])
    && (forall k, l | 0 <= k < l < |at| :: at[k] < at[l])
    && (forall i | 0 <= i < |updates| && offset <= updates[i] :: i in at)
  }

  /** `validateActionableUpdates`: reject malformed replies, drop stale updates. */
  method ValidateActionableUpdates(updates: seq<int>, offset: int)
      returns (result: Result<seq<int>, Error>, ghost at: seq<nat>)
    ensures result.Ok? <==> forall i | 0 <= i < |updates| :: 0 <= updates[i] < MAX_INT
    ensures result.Ok? ==> KeptAt(updates, offset, result.value, at) && result.value == Unseen(updates, offset)
  {
    var actionable: seq<int> := [];
    at := [];
    for i := 0 to |updates|
      invariant ValidReply(updates[..i])
      invariant KeptAt(updates[..i], offset, actionable, at)
      invariant actionable + Unseen(updates[i..], offset) == Unseen(updates, offset)
    {
      assert updates[i..][1..] == updates[i + 1..] && updates[..i + 1] == updates[..i] + [updates[i]];
      if !ValidUpdate(updates[i]) { return Err(BadUpdate), at; }
      if offset <= updates[i] {
        assert actionable + ([updates[i]] + Unseen(updates[i + 1..], offset))
            == (actionable + [updates[i]]) + Unseen(updates[i + 1..], offset);
        assert forall k | k in at :: k in at + [i];
        actionable, at := actionable + [updates[i]], at + [i];
        assert i in at;
      }
    }
    assert updates[..|updates|] == updates;
    result := Ok(actionable);
  }

  // ---- The steps ----

  /** The tables move on and the history of what they held is kept. */
  function Log(w: World, call: Call, tables: Tables): World {
    var closing := call.op.Confirm? || call.op.Prune?;
    w.(tables := tables,
       retired := w.retired + (w.tables.rows.Keys - tables.rows.Keys),
       completions := w.completions + multiset(set id | id in tables.rows && NewlyDone(w.tables, tables, id)),
       abandoned := w.abandoned +
         (set id | id in w.tables.rows && closing && !w.tables.rows[id].status.Terminal() && !Open(tables, id)))
  }

  predicate NewlyDone(t: Tables, u: Tables, id: int) {
    id in u.rows && u.rows[id].status.Done? && !(id in t.rows && t.rows[id].status.Done?)
  }

  predicate Open(t: Tables, id: int) { id in t.rows && !t.rows[id].status.Terminal() }

  function Resume(w: World, g: Generation, offset: int, phase: Phase): World {
    w.(generation := Some(g.(offset := offset, phase := phase)))
  }

  function Exit(w: World): World { w.(generation := None) }

  function Step(c: Clock, w: World, e: Event): World {
    match e
    case Arrive(id) =>
      if 0 <= id && forall known | known in w.issued :: known < id
      then w.(issued := w.issued + {id}, pending := w.pending + {id}) else w
    case Expire(id) =>
      if id in w.pending then w.(pending := w.pending - {id}, expired := w.expired + {id}) else w
    case MaintainJournal(now, fault) =>
      var call := Call(Prune, now, fault);
      Log(w, call, Perform(c, w.tables, call).tables)
    case Start(owner) =>
      if w.generation.None? then w.(generation := Some(Generation(owner, w.tables.next, Polling))) else w
    case Crash => Exit(w)
    case _ => if w.generation.None? then w else GenerationStep(c, w, w.generation.value, e)
  }

  function GenerationStep(c: Clock, w: World, g: Generation, e: Event): World {
    match (g.phase, e)
    case (Polling, PollFails(reached)) =>
      if reached then w.(pending := Forget(w.pending, g.offset)) else w
    case (Polling, PollReturns(updates)) =>
      var kept := Forget(w.pending, g.offset);
      if !HonestReply(kept, g.offset, updates) then w
      else if !ValidReply(updates) then w.(pending := kept)
      else Resume(w.(pending := kept), g, g.offset, Received(Unseen(updates, g.offset)))
    case (Received(batch), ConfirmPoll(now, fault)) =>
      var call := Call(Confirm(g.offset), now, fault);
      var out := Perform(c, w.tables, call);
      var v := Log(w, call, out.tables);
      if out.reply.Err? then Exit(v) else Resume(v, g, g.offset, Claiming(batch))
    case (Claiming(todo), Claim(lease, now, fault)) =>
      if todo == [] then Resume(w, g, g.offset, Polling)
      else if todo[0] < g.offset then Resume(w, g, g.offset, Claiming(todo[1..]))
      else ClaimFront(c, w, g, todo, Call(Begin(todo[0], g.owner, lease, MAX_HANDLER_FAILURES), now, fault))
    case (Handling(id, attempt, todo), HandlerReturns(verdict)) =>
      Resume(w.(returned := w.returned + [Return(id, attempt, verdict)]), g, g.offset,
             Deciding(id, attempt, todo, verdict))
    case (Deciding(id, _, todo, verdict), Decide(hold, causeBytes, now, fault)) =>
      Conclude(c, w, g, id, todo, verdict, Call(Settlement(g.owner, id, verdict, hold, causeBytes), now, fault))
    case (Releasing(id), Release(now, fault)) =>
      var call := Call(Abort(id, g.owner), now, fault);
      Exit(Log(w, call, Perform(c, w.tables, call).tables))
    case _ => w
  }

  function ClaimFront(c: Clock, w: World, g: Generation, todo: seq<int>, call: Call): World
    requires todo != []
  {
    var out := Perform(c, w.tables, call);
    var v := Log(w, call, out.tables);
    match out.reply
    case Ok(Claimed(Execute, attempt, _)) => Resume(v, g, g.offset, Handling(todo[0], attempt, todo[1..]))
    case Ok(Claimed(AlreadyTerminal, _, _)) => Resume(v, g, todo[0] + 1, Claiming(todo[1..]))
    case Ok(Claimed(DeadLetter, _, _)) => Resume(v, g, todo[0] + 1, Claiming(todo[1..]))
    case _ => Exit(v)
  }

  /** The journal call that records a verdict. */
  function Settlement(owner: string, id: int, verdict: Verdict, hold: int, causeBytes: nat): Op {
    match verdict
    case Finished => Complete(id, id + 1, owner)
    case Cancelled => Abort(id, owner)
    case StuckHandler => Fail(id, id + 1, owner, MAX_HANDLER_FAILURES, causeBytes, Some(hold))
    case _ => Fail(id, id + 1, owner, MAX_HANDLER_FAILURES, causeBytes, None)
  }

  /**
   What the loop does once the verdict is recorded: go on past the update, give
   back a claim whose completion failed, or end this generation.
   */
  function Conclude(c: Clock, w: World, g: Generation, id: int, todo: seq<int>, verdict: Verdict, call: Call): World {
    var out := Perform(c, w.tables, call);
    var v := Log(w, call, out.tables);
    match verdict
    case Finished =>
      if out.reply.Ok? then Resume(v, g, id + 1, Claiming(todo)) else Resume(v, g, g.offset, Releasing(id))
    case HandlerError =>
      if out.reply == Ok(Recorded(true)) then Resume(v, g, id + 1, Claiming(todo)) else Exit(v)
    case _ => Exit(v)
  }

  function Run(c: Clock, events: seq<Event>): World
    decreases |events|
  {
    if events == [] then START else Step(c, Run(c, events[..|events| - 1]), events[|events| - 1])
  }

  // ---- The invariant ----

  /** The update was finished, or the server gave it up. */
  predicate Accounted(w: World, id: int) {
    || (id in w.tables.rows && w.tables.rows[id].status.Terminal())
    || id in w.retired
    || id in w.expired
  }

  function Batch(p: Phase): seq<int> {
    match p
    case Polling => []
    case Received(batch) => batch
    case Claiming(todo) => todo
    case Handling(id, _, todo) => [id] + todo
    case Deciding(id, _, todo, _) => [id] + todo
    case Releasing(_) => []
  }

  predicate DurableInv(w: World) {
    && WellFormed(w.tables)
    && w.pending <= w.issued && w.tables.rows.Keys <= w.issued
    && (0 < w.tables.next ==> w.tables.next - 1 in w.issued)
    && (forall id | id in w.retired :: id < w.tables.confirmed && id !in w.tables.rows)
    && (forall id | id in w.issued :: id in w.pending || Accounted(w, id))
    && (forall id | id in w.issued :: id < w.tables.next ==> Accounted(w, id))
    && (forall id | id in w.completions :: w.completions[id] == 1)
    && (forall id | id in w.completions ::
          (id in w.tables.rows && w.tables.rows[id].status.Done?) || id in w.retired)
    && w.abandoned <= w.expired
  }

  predicate GenerationInv(w: World, g: Generation) {
    var batch := Batch(g.phase);
    && w.tables.confirmed <= g.offset <= w.tables.next
    && Ascending(batch)
    && (forall id | id in batch :: g.offset <= id && id in w.issued)
    && (forall id, later | id in w.issued && g.offset <= id && later in batch && id < later ::
          id in batch || Accounted(w, id))
  }

  predicate Inv(w: World) {
    DurableInv(w) && (w.generation.Some? ==> GenerationInv(w, w.generation.value))
  }

  // ---- One journal call ----

  /** Everything the invariant needs to know about what a call did to the tables. */
  predicate CallEffect(t: Tables, u: Tables, op: Op) {
    && TablesStep(t, u)
    && (u.next == t.next ||
        ((op.Begin? || op.Complete? || op.Fail?) && u.next == op.id + 1
         && op.id in u.rows && u.rows[op.id].status.Terminal()))
    && (u.confirmed == t.confirmed || (op.Confirm? && u.confirmed == op.offset))
    && (forall id | id in u.rows && id !in t.rows :: op.Begin? && id == op.id)
    && (forall id | id in u.rows && NewlyDone(t, u, id) :: op.Complete? && id == op.id && Open(t, id))
    && (forall id | id in t.rows && id !in u.rows :: op.Confirm? || op.Prune?)
    && (op.Confirm? || op.Prune? ==> forall id | id in t.rows && Open(t, id) && !Open(u, id) :: id < u.confirmed)
  }

  lemma ClaimHasEffect(c: Clock, t: Tables, op: Op, now: int)
    requires WellFormed(t) && op.Begin?
    ensures CallEffect(t, Intended(c, t, op, now).tables, op)
  {
    BeginKeepsShape(c, t, op.id, op.owner, op.lease, op.limit, now);
  }

  lemma SettlingHasEffect(c: Clock, t: Tables, op: Op, now: int)
    requires WellFormed(t) && (op.Complete? || op.Abort? || op.Fail?)
    ensures CallEffect(t, Intended(c, t, op, now).tables, op)
  {
    SettlingKeepsShape(c, t, op, now);
  }

  lemma MaintenanceHasEffect(c: Clock, t: Tables, op: Op, now: int)
    requires WellFormed(t) && (op.Confirm? || op.Prune?)
    ensures CallEffect(t, Intended(c, t, op, now).tables, op)
  {
    MaintenanceKeepsShape(c, t, op, now);
    hide Intended;
    MaintenanceSweeps(c, t, op, now);
  }

  lemma CallHasEffect(c: Clock, t: Tables, call: Call)
    requires WellFormed(t)
    ensures WellFormed(Perform(c, t, call).tables)
    ensures CallEffect(t, Perform(c, t, call).tables, call.op)
  {
    StepKeepsShape(c, t, call);
    hide Intended;
    if call.op.Begin? {
      ClaimHasEffect(c, t, call.op, call.now);
    } else if call.op.Confirm? || call.op.Prune? {
      MaintenanceHasEffect(c, t, call.op, call.now);
    } else {
      SettlingHasEffect(c, t, call.op, call.now);
    }
  }

  /** A call about an update may only move the checkpoint past accounted updates. */
  predicate CallAllowed(w: World, op: Op) {
    match op
    case Begin(id, _, _, _) => MayPass(w, id)
    case Complete(id, _, _) => MayPass(w, id)
    case Fail(id, _, _, _, _, _) => MayPass(w, id)
    case _ => true
  }

  predicate MayPass(w: World, id: int) {
    && id in w.issued && w.tables.confirmed <= id
    && forall smaller | smaller in w.issued && smaller < id :: Accounted(w, smaller)
  }

  lemma {:induction false} AccountedStays(w: World, call: Call, u: Tables)
    requires CallEffect(w.tables, u, call.op)
    ensures forall id :: Accounted(w, id) ==> Accounted(Log(w, call, u), id)
  {
  }

  lemma LogKeepsCompletions(c: Clock, w: World, call: Call, u: Tables)
    requires DurableInv(w) && CallAllowed(w, call.op)
    requires WellFormed(u) && CallEffect(w.tables, u, call.op)
    ensures var v := Log(w, call, u);
      && (forall id | id in v.retired :: id < v.tables.confirmed && id !in v.tables.rows)
      && (forall id | id in v.completions :: v.completions[id] == 1)
      && (forall id | id in v.completions ::
            (id in v.tables.rows && v.tables.rows[id].status.Done?) || id in v.retired)
  {
    var newly := set id | id in u.rows && NewlyDone(w.tables, u, id);
    forall id | id in newly ensures id !in w.completions {
      assert Open(w.tables, id);
    }
  }

  lemma LogKeepsBounds(w: World, call: Call, u: Tables)
    requires WellFormed(u) && DurableInv(w) && CallAllowed(w, call.op) && CallEffect(w.tables, u, call.op)
    ensures u.rows.Keys <= w.issued && (0 < u.next ==> u.next - 1 in w.issued)
    ensures Log(w, call, u).abandoned <= w.expired
  {
    var v := Log(w, call, u);
    forall id | id in u.rows ensures id in w.issued {
      if id !in w.tables.rows { assert call.op.Begin? && id == call.op.id; }
    }
    forall id | id in v.abandoned ensures id in w.expired {
      if id !in w.abandoned {
        assert Open(w.tables, id) && !Open(u, id) && id < u.confirmed;
        assert Accounted(w, id);
      }
    }
  }

  lemma LogKeepsAccounts(w: World, call: Call, u: Tables)
    requires DurableInv(w) && CallAllowed(w, call.op) && CallEffect(w.tables, u, call.op)
    ensures var v := Log(w, call, u);
      && (forall id | id in v.issued :: id in v.pending || Accounted(v, id))
      && (forall id | id in v.issued :: id < v.tables.next ==> Accounted(v, id))
  {
    AccountedStays(w, call, u);
    var v := Log(w, call, u);
    forall id | id in v.issued && id < v.tables.next ensures Accounted(v, id) {
      if w.tables.next <= id {
        assert u.next == call.op.id + 1;
        if id < call.op.id { assert Accounted(w, id); }
      }
    }
  }

  lemma LogKeepsInv(c: Clock, w: World, call: Call)
    requires DurableInv(w) && CallAllowed(w, call.op)
    ensures DurableInv(Log(w, call, Perform(c, w.tables, call).tables))
    ensures CallEffect(w.tables, Perform(c, w.tables, call).tables, call.op)
  {
    var u := Perform(c, w.tables, call).tables;
    CallHasEffect(c, w.tables, call);
    LogKeepsBounds(w, call, u);
    LogKeepsAccounts(w, call, u);
    LogKeepsCompletions(c, w, call, u);
    hide Perform, CallEffect, Accounted, CallAllowed, NewlyDone, WellFormed, Open;
  }

  // ---- Every step keeps the invariant ----

  /** What the running generation relies on survives a journal call. */
  predicate Survives(w: World, v: World) {
    && v.issued == w.issued
    && w.tables.next <= v.tables.next
    && (forall id | id in w.issued :: Accounted(w, id) ==> Accounted(v, id))
  }

  lemma LogSurvives(c: Clock, w: World, call: Call)
    requires DurableInv(w) && CallAllowed(w, call.op)
    ensures Survives(w, Log(w, call, Perform(c, w.tables, call).tables))
  {
    hide Perform;
    LogKeepsInv(c, w, call);
    AccountedStays(w, call, Perform(c, w.tables, call).tables);
  }

  /** The first update of a batch may be claimed: all smaller ones are accounted for. */
  lemma FrontMayPass(w: World, g: Generation)
    requires Inv(w) && GenerationInv(w, g) && Batch(g.phase) != []
    ensures MayPass(w, Batch(g.phase)[0])
  {
    var batch := Batch(g.phase);
    assert batch[0] in batch;
    forall id | id in w.issued && id < batch[0] ensures Accounted(w, id) {
      if g.offset <= id { assert id !in batch; }
    }
  }

  /** Moving on past the front of the batch, once it is accounted for. */
  lemma AdvancePastFront(w: World, v: World, g: Generation, phase: Phase)
    requires GenerationInv(w, g) && Batch(g.phase) != []
    requires Survives(w, v) && v.tables.confirmed <= g.offset
    requires Batch(phase) == Batch(g.phase)[1..]
    requires Batch(g.phase)[0] + 1 <= v.tables.next
    ensures GenerationInv(v, g.(offset := Batch(g.phase)[0] + 1, phase := phase))
  {
    var batch := Batch(g.phase);
    assert batch == [batch[0]] + batch[1..];
    assert batch[0] in batch;
    forall id | id in batch[1..] ensures batch[0] + 1 <= id && id in v.issued {
      assert id in batch;
    }
    forall id, later | id in v.issued && batch[0] + 1 <= id && later in batch[1..] && id < later
      ensures id in batch[1..] || Accounted(v, id)
    {
      assert later in batch;
    }
  }

  /** Standing still: the same offset and no new updates to process. */
  lemma StandStill(w: World, v: World, g: Generation, phase: Phase)
    requires GenerationInv(w, g) && Survives(w, v) && v.tables.confirmed <= g.offset
    requires Batch(phase) == Batch(g.phase) || Batch(phase) == []
    ensures GenerationInv(v, g.(phase := phase))
  {
  }

  lemma UnseenKeeps(updates: seq<int>, offset: int)
    ensures forall id | id in Unseen(updates, offset) :: id in updates && offset <= id
  {
    if updates != [] { UnseenKeeps(updates[1..], offset); }
  }

  lemma PollKeepsInv(c: Clock, w: World, e: Event)
    requires Inv(w) && w.generation.Some? && w.generation.value.phase.Polling?
    requires e.PollFails? || e.PollReturns?
    ensures Inv(GenerationStep(c, w, w.generation.value, e))
  {
    var g := w.generation.value;
    var kept := Forget(w.pending, g.offset);
    var v := w.(pending := kept);
    assert DurableInv(v);
    if e.PollReturns? && HonestReply(kept, g.offset, e.updates) {
      UnseenKeeps(e.updates, g.offset);
    }
  }

  lemma ConfirmKeepsInv(c: Clock, w: World, e: Event)
    requires Inv(w) && w.generation.Some? && w.generation.value.phase.Received? && e.ConfirmPoll?
    ensures Inv(GenerationStep(c, w, w.generation.value, e))
  {
    var g := w.generation.value;
    var call := Call(Confirm(g.offset), e.now, e.fault);
    LogKeepsInv(c, w, call);
    LogSurvives(c, w, call);
    hide Perform;
    StandStill(w, Log(w, call, Perform(c, w.tables, call).tables), g, Claiming(g.phase.batch));
  }

  /** A claim answered without execution is on a terminal row, and the checkpoint is past it. */
  lemma AnsweredClaim(c: Clock, t: Tables, call: Call)
    requires WellFormed(t) && call.op.Begin?
    requires var reply := Perform(c, t, call).reply;
             reply.Ok? && reply.value.Claimed?
             && (reply.value.disposition.AlreadyTerminal? || reply.value.disposition.DeadLetter?)
    ensures var u := Perform(c, t, call).tables;
            call.op.id in u.rows && u.rows[call.op.id].status.Terminal() && call.op.id + 1 <= u.next
  {
  }

  lemma Resumed(v: World, g: Generation, offset: int, phase: Phase)
    requires DurableInv(v) && GenerationInv(v, g.(offset := offset, phase := phase))
    ensures Inv(Resume(v, g, offset, phase))
  {
  }

  lemma Exited(v: World)
    requires DurableInv(v)
    ensures Inv(Exit(v))
  {
  }

  /** A journal call of the running generation, seen from the loop: nothing it relies on is lost. */
  lemma LogOfGeneration(c: Clock, w: World, g: Generation, call: Call)
    requires Inv(w) && GenerationInv(w, g) && Batch(g.phase) != []
    requires (call.op.Begin? || call.op.Complete? || call.op.Fail? || call.op.Abort?) && call.op.id == Batch(g.phase)[0]
    ensures var v := Log(w, call, Perform(c, w.tables, call).tables);
            DurableInv(v) && Survives(w, v) && v.tables.confirmed <= g.offset
  {
    hide Perform;
    FrontMayPass(w, g);
    LogKeepsInv(c, w, call);
    LogSurvives(c, w, call);
  }

  lemma ClaimFrontKeepsInv(c: Clock, w: World, g: Generation, todo: seq<int>, call: Call)
    requires Inv(w) && GenerationInv(w, g) && g.phase == Claiming(todo) && todo != []
    requires call.op.Begin? && call.op.id == todo[0]
    ensures Inv(ClaimFront(c, w, g, todo, call))
  {
    hide DurableInv, GenerationInv, Survives, Log, Perform;
    LogOfGeneration(c, w, g, call);
    var out := Perform(c, w.tables, call);
    var v := Log(w, call, out.tables);
    assert [todo[0]] + todo[1..] == todo;
    TablesAreWellFormed(w);
    Exited(v);
    match out.reply {
      case Ok(Claimed(Execute, attempt, _)) =>
        StandStill(w, v, g, Handling(todo[0], attempt, todo[1..]));
        Resumed(v, g, g.offset, Handling(todo[0], attempt, todo[1..]));
      case Ok(Claimed(AlreadyTerminal, _, _)) =>
        AnsweredClaim(c, w.tables, call);
        PassFront(w, v, g, call, out.tables, Claiming(todo[1..]));
      case Ok(Claimed(DeadLetter, _, _)) =>
        AnsweredClaim(c, w.tables, call);
        PassFront(w, v, g, call, out.tables, Claiming(todo[1..]));
      case _ =>
    }
  }

  lemma TablesAreWellFormed(w: World)
    requires DurableInv(w)
    ensures WellFormed(w.tables)
  {
  }

  lemma PassFront(w: World, v: World, g: Generation, call: Call, u: Tables, phase: Phase)
    requires GenerationInv(w, g) && Batch(g.phase) != []
    requires v == Log(w, call, u) && DurableInv(v) && Survives(w, v) && v.tables.confirmed <= g.offset
    requires Batch(phase) == Batch(g.phase)[1..]
    requires Batch(g.phase)[0] + 1 <= u.next
    ensures Inv(Resume(v, g, Batch(g.phase)[0] + 1, phase))
  {
    hide DurableInv, GenerationInv, Survives;
    AdvancePastFront(w, v, g, phase);
    Resumed(v, g, Batch(g.phase)[0] + 1, phase);
  }

  /** A call that settles the update for good leaves the checkpoint past it. */
  lemma SettledForGood(c: Clock, t: Tables, call: Call)
    requires call.op.Complete? || call.op.Fail?
    requires Perform(c, t, call).reply.Ok? && (call.op.Fail? ==> Perform(c, t, call).reply == Ok(Recorded(true)))
    ensures call.op.id + 1 <= Perform(c, t, call).tables.next
  {
  }

  lemma ConcludeKeepsInv(c: Clock, w: World, g: Generation, call: Call, hold: int, causeBytes: nat)
    requires Inv(w) && GenerationInv(w, g) && g.phase.Deciding?
    requires call.op == Settlement(g.owner, g.phase.id, g.phase.verdict, hold, causeBytes)
    ensures Inv(Conclude(c, w, g, g.phase.id, g.phase.todo, g.phase.verdict, call))
  {
    hide DurableInv, GenerationInv, Survives, Log, Perform;
    var id, todo, verdict := g.phase.id, g.phase.todo, g.phase.verdict;
    LogOfGeneration(c, w, g, call);
    assert Batch(g.phase)[1..] == todo;
    Exited(Log(w, call, Perform(c, w.tables, call).tables));
    var out := Perform(c, w.tables, call);
    var v := Log(w, call, out.tables);
    if verdict.Finished? && !out.reply.Ok? {
      StandStill(w, v, g, Releasing(id));
      Resumed(v, g, g.offset, Releasing(id));
    } else if verdict.Finished? || (verdict.HandlerError? && out.reply == Ok(Recorded(true))) {
      SettledForGood(c, w.tables, call);
      PassFront(w, v, g, call, out.tables, Claiming(todo));
    }
  }

  lemma MaintainKeepsInv(c: Clock, w: World, e: Event)
    requires Inv(w) && e.MaintainJournal?
    ensures Inv(Step(c, w, e))
  {
    var call := Call(Prune, e.now, e.fault);
    LogKeepsInv(c, w, call);
    LogSurvives(c, w, call);
    hide Perform;
    if w.generation.Some? {
      StandStill(w, Log(w, call, Perform(c, w.tables, call).tables), w.generation.value, w.generation.value.phase);
    }
  }

  lemma {:induction false} DurableAcrossGenerations(w: World, returned: seq<Return>, next: Option<Generation>)
    requires DurableInv(w)
    ensures DurableInv(w.(returned := returned, generation := next))
  {
  }

  lemma LifecycleKeepsInv(c: Clock, w: World, e: Event)
    requires Inv(w) && (e.Start? || e.Crash?)
    ensures Inv(Step(c, w, e))
  {
    var next := Step(c, w, e).generation;
    DurableAcrossGenerations(w, w.returned, next);
    hide DurableInv;
  }

  lemma ServerKeepsInv(c: Clock, w: World, e: Event)
    requires Inv(w) && (e.Arrive? || e.Expire?)
    ensures Inv(Step(c, w, e))
  {
    hide WellFormed, GenerationStep, Ascending, Log, Batch;
    var v := Step(c, w, e);
    assert DurableInv(v);
    if w.generation.Some? {
      hide DurableInv;
      assert GenerationInv(v, w.generation.value) by { ServerLeavesBatch(w, v, w.generation.value); }
    }
  }

  /** A newly arrived update comes after the whole batch, and one given up is accounted for. */
  lemma ServerLeavesBatch(w: World, v: World, g: Generation)
    requires GenerationInv(w, g) && v.tables == w.tables && v.retired == w.retired && w.expired <= v.expired
    requires w.issued <= v.issued && forall id, known | id in v.issued && known in w.issued :: id in w.issued || known < id
    ensures GenerationInv(v, g)
  {
    hide Ascending, Batch;
    forall id, later | id in v.issued && g.offset <= id && later in Batch(g.phase) && id < later
      ensures id in Batch(g.phase) || Accounted(v, id)
    {
      assert later in w.issued;
    }
  }

  lemma ClaimingKeepsInv(c: Clock, w: World, g: Generation, e: Event)
    requires Inv(w) && w.generation == Some(g) && g.phase.Claiming? && e.Claim?
    ensures Inv(GenerationStep(c, w, g, e))
  {
    hide ClaimFront;
    var todo := g.phase.todo;
    if todo == [] {
      StandStill(w, w, g, Polling);
    } else {
      assert todo[0] in todo;
      ClaimFrontKeepsInv(c, w, g, todo, Call(Begin(todo[0], g.owner, e.lease, MAX_HANDLER_FAILURES), e.now, e.fault));
    }
  }

  lemma DecidingKeepsInv(c: Clock, w: World, g: Generation, e: Event)
    requires Inv(w) && w.generation == Some(g) && g.phase.Deciding? && e.Decide?
    ensures Inv(GenerationStep(c, w, g, e))
  {
    hide Conclude;
    var op := Settlement(g.owner, g.phase.id, g.phase.verdict, e.hold, e.causeBytes);
    ConcludeKeepsInv(c, w, g, Call(op, e.now, e.fault), e.hold, e.causeBytes);
  }

  lemma ReleasingKeepsInv(c: Clock, w: World, g: Generation, e: Event)
    requires Inv(w) && w.generation == Some(g) && g.phase.Releasing? && e.Release?
    ensures Inv(GenerationStep(c, w, g, e))
  {
    hide Perform;
    LogKeepsInv(c, w, Call(Abort(g.phase.id, g.owner), e.now, e.fault));
  }

  lemma HandlingKeepsInv(c: Clock, w: World, g: Generation, e: Event)
    requires Inv(w) && w.generation == Some(g) && g.phase.Handling? && e.HandlerReturns?
    ensures Inv(GenerationStep(c, w, g, e))
  {
    var phase := Deciding(g.phase.id, g.phase.attempt, g.phase.todo, e.verdict);
    var v := w.(returned := w.returned + [Return(g.phase.id, g.phase.attempt, e.verdict)]);
    StandStill(w, v, g, phase);
    DurableAcrossGenerations(w, v.returned, Some(g.(phase := phase)));
    hide DurableInv, GenerationInv;
  }

  /** An event the generation is not waiting for does nothing. */
  lemma OtherwiseIdle(c: Clock, w: World, g: Generation, e: Event)
    ensures || GenerationStep(c, w, g, e) == w
            || (g.phase.Polling? && (e.PollFails? || e.PollReturns?)) || (g.phase.Received? && e.ConfirmPoll?)
            || (g.phase.Claiming? && e.Claim?) || (g.phase.Handling? && e.HandlerReturns?)
            || (g.phase.Deciding? && e.Decide?) || (g.phase.Releasing? && e.Release?)
  {
  }

  lemma GenerationStepKeepsInv(c: Clock, w: World, g: Generation, e: Event)
    requires Inv(w) && w.generation == Some(g)
    ensures Inv(GenerationStep(c, w, g, e))
  {
    OtherwiseIdle(c, w, g, e);
    hide Inv;
    if g.phase.Claiming? && e.Claim? {
      ClaimingKeepsInv(c, w, g, e);
    } else if g.phase.Deciding? && e.Decide? {
      DecidingKeepsInv(c, w, g, e);
    } else if g.phase.Releasing? && e.Release? {
      ReleasingKeepsInv(c, w, g, e);
    } else if g.phase.Handling? && e.HandlerReturns? {
      HandlingKeepsInv(c, w, g, e);
    } else if g.phase.Received? && e.ConfirmPoll? {
      ConfirmKeepsInv(c, w, e);
    } else if g.phase.Polling? && (e.PollFails? || e.PollReturns?) {
      PollKeepsInv(c, w, e);
    }
  }

  lemma StepKeepsInv(c: Clock, w: World, e: Event)
    requires Inv(w)
    ensures Inv(Step(c, w, e))
  {
    match e {
      case Arrive(_) => ServerKeepsInv(c, w, e);
      case Expire(_) => ServerKeepsInv(c, w, e);
      case Start(_) => LifecycleKeepsInv(c, w, e);
      case Crash => LifecycleKeepsInv(c, w, e);
      case MaintainJournal(_, _) => MaintainKeepsInv(c, w, e);
      case _ =>
        hide GenerationStep, Inv;
        if w.generation.Some? { GenerationStepKeepsInv(c, w, w.generation.value, e); }
    }
  }

  lemma {:induction false} RunKeepsInv(c: Clock, events: seq<Event>)
    ensures Inv(Run(c, events))
    decreases |events|
  {
    if events != [] {
      hide Step, Inv;
      RunKeepsInv(c, events[..|events| - 1]);
      StepKeepsInv(c, Run(c, events[..|events| - 1]), events[|events| - 1]);
    }
  }

  // ---- What the protocol guarantees ----

  /**
   No update is lost: in every run with crashes, storage faults and ambiguous
   commits, every update the server ever had is still pending there, was given
   up by the server itself, or has a committed done or dead row (or one since
   pruned). The polled offset never runs ahead of the durable one, everything
   below the durable offset is accounted for, and maintenance only ever closes
   unfinished rows of updates the server gave up.
   */
  lemma {:induction false} NoUpdateIsLost(c: Clock, events: seq<Event>)
    ensures var w := Run(c, events);
      && (forall id | id in w.issued :: id in w.pending || Accounted(w, id))
      && (forall id | id in w.issued && id < w.tables.next :: Accounted(w, id))
      && (w.generation.Some? ==> w.tables.confirmed <= w.generation.value.offset <= w.tables.next)
      && w.abandoned <= w.expired
  {
    RunKeepsInv(c, events);
  }

  /** An update enters the done state at most once, even across crashes, replays and pruning. */
  lemma {:induction false} CompletedAtMostOnce(c: Clock, events: seq<Event>, id: int)
    ensures Run(c, events).completions[id] <= 1
  {
    RunKeepsInv(c, events);
  }

  /** Nothing the server already forgot is ever executed again. */
  lemma ExecutesOnlyOpenUpdates(c: Clock, events: seq<Event>)
    ensures var w := Run(c, events);
      w.generation.Some? && w.generation.value.phase.Handling? ==>
        var id := w.generation.value.phase.id;
        id in w.issued && id !in w.retired && w.generation.value.offset <= id
        && forall smaller | smaller in w.issued && smaller < id :: Accounted(w, smaller)
  {
    RunKeepsInv(c, events);
    var w := Run(c, events);
    if w.generation.Some? && w.generation.value.phase.Handling? {
      FrontMayPass(w, w.generation.value);
    }
  }
}
