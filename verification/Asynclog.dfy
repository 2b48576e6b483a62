/**
 The asynchronous log handler as a small concurrent protocol: producers and
 lifecycle calls serialized by one mutex, a single writer goroutine, a bounded
 queue, and counters that are updated at separate moments. Every atomic action is
 a step of its own.
 */
module Asynclog {
  const QUEUE_CAPACITY: nat := 256

  type Item = nat

  datatype Phase = Open | Draining | Stopped

  /** What the holder of the lifecycle mutex is about to do. */
  datatype Holder =
    | Free
    | Entered(item: Item)
    | Admitted(item: Item)
    | CountDepth
    | RaiseHighWater(depth: int)
    | CountTotal
    | CountPending
    | CloseDrain
    | StoreStopped
    | CloseAbort
    | CloseDone

  /** Which of its two loops the writer serves the queue from. */
  datatype Mode = Running | DrainingQueue

  /** Where the writer goroutine is. */
  datatype Writer =
    | Top
    | Selecting
    | DrainTop
    | DrainSelecting
    | Received(item: Item, mode: Mode)
    | Taken(item: Item, mode: Mode)
    | Loading(item: Item, mode: Mode)
    | InSink(item: Item, pending: nat, mode: Mode)
    | Clearing(reported: nat, mode: Mode)
    | Swapping(reported: nat, current: nat, mode: Mode)
    | Discarding
    | Discarded
    | Finishing
    | ClosingDone
    | Exited

  datatype Life = Life(phase: Phase, drainClosed: bool, abortClosed: bool, doneClosed: bool, aborted: bool)

  datatype Counters = Counters(depth: int, highWater: int, total: nat, pending: nat, refused: nat, sinkErrors: nat)

  /** One record handed to the sink, the drops it reported, and whether the sink took it. */
  datatype Emission = Emission(item: Item, reported: nat, ok: bool)

  datatype History = History(accepted: seq<Item>, emitted: seq<Emission>, discarded: seq<Item>)

  datatype State = State(life: Life, queue: seq<Item>, counters: Counters, log: History, holder: Holder, writer: Writer)

  const START: State :=
    State(Life(Open, false, false, false, false), [], Counters(0, 0, 0, 0, 0, 0), History([], [], []), Free, Top)

  /** Which ready case of a select the scheduler takes. */
  datatype Choice = TakeAbort | TakeQueue | TakeDrain

  datatype Event =
    | Handle(item: Item)
    | BeginDrain
    | Abort
    | HolderStep
    | WriterStep(choice: Choice, sinkOk: bool)

  // ---- Steps ----

  function Step(s: State, e: Event): State {
    match e
    case Handle(item) => if s.holder.Free? then s.(holder := Entered(item)) else s
    case BeginDrain =>
      if s.holder.Free? && s.life.phase.Open? then s.(life := s.life.(phase := Draining), holder := CloseDrain) else s
    case Abort => if s.holder.Free? && !s.life.phase.Stopped? then s.(holder := StoreStopped) else s
    case HolderStep =>
      if s.holder.Entered? || s.holder.Admitted? then Enqueue(s)
      else if s.holder.CountDepth? || s.holder.RaiseHighWater? || s.holder.CountTotal? || s.holder.CountPending?
      then s.(counters := Counted(s.counters, s.holder), holder := AfterCount(s.counters, s.holder))
      else s.(life := Announced(s.life, s.holder), holder := if s.holder.StoreStopped? then CloseAbort
                                                             else if s.holder.CloseAbort? then CloseDone else Free)
    case WriterStep(choice, sinkOk) =>
      if Polls(s.writer) then Poll(s, choice)
      else if Delivers(s.writer) then Deliver(s, sinkOk)
      else WindUp(s)
  }

  /** The two decisions of a producer: is the handler open, and is there room. */
  function Enqueue(s: State): State {
    match s.holder
    case Entered(item) => if s.life.phase.Open? then s.(holder := Admitted(item)) else Refuse(s)
    case Admitted(item) =>
      if |s.queue| < QUEUE_CAPACITY
      then s.(queue := s.queue + [item], log := s.log.(accepted := s.log.accepted + [item]), holder := CountDepth)
      else Refuse(s)
    case _ => s
  }

  function Refuse(s: State): State {
    s.(counters := s.counters.(refused := s.counters.refused + 1), holder := CountTotal)
  }

  function Counted(c: Counters, h: Holder): Counters {
    match h
    case CountDepth => c.(depth := c.depth + 1)
    case RaiseHighWater(depth) => c.(highWater := if c.highWater < depth then depth else c.highWater)
    case CountTotal => c.(total := c.total + 1)
    case CountPending => c.(pending := c.pending + 1)
    case _ => c
  }

  function AfterCount(c: Counters, h: Holder): Holder {
    if h.CountDepth? then RaiseHighWater(c.depth + 1) else if h.CountTotal? then CountPending else Free
  }

  function Announced(life: Life, h: Holder): Life {
    match h
    case CloseDrain => life.(drainClosed := true)
    case StoreStopped => life.(phase := Stopped, aborted := true)
    case CloseAbort => life.(abortClosed := true)
    case CloseDone => life.(doneClosed := true)
    case _ => life
  }

  predicate Polls(w: Writer) { w.Top? || w.Selecting? || w.DrainTop? || w.DrainSelecting? }

  predicate Delivers(w: Writer) { w.Received? || w.Taken? || w.Loading? || w.InSink? || w.Clearing? || w.Swapping? }

  function Receive(s: State, mode: Mode): State
    requires s.queue != []
  {
    s.(queue := s.queue[1..], writer := Received(s.queue[0], mode))
  }

  /** Waiting for a record, or for the order to drain or to give up. */
  function Poll(s: State, choice: Choice): State {
    match s.writer
    case Top => s.(writer := if s.life.abortClosed then Discarding else Selecting)
    case Selecting =>
      if choice.TakeAbort? && s.life.abortClosed then s.(writer := Discarding)
      else if choice.TakeQueue? && s.queue != [] then Receive(s, Running)
      else if choice.TakeDrain? && s.life.drainClosed then s.(writer := DrainTop)
      else s
    case DrainTop => s.(writer := if s.life.phase.Stopped? then Discarding else DrainSelecting)
    case DrainSelecting =>
      if choice.TakeAbort? && s.life.abortClosed then s.(writer := Discarding)
      else if s.queue != [] then Receive(s, DrainingQueue)
      else if s.life.abortClosed then s.(writer := Discarding)
      else s.(writer := Finishing)
    case _ => s
  }

  function After(mode: Mode): Writer { if mode.Running? then Top else DrainTop }

  /** Handing one record to the sink, with the drops counted so far, and taking reported drops off the count. */
  function Deliver(s: State, sinkOk: bool): State {
    match s.writer
    case Received(item, mode) =>
      if s.holder.Free? then s.(counters := s.counters.(depth := s.counters.depth - 1), writer := Taken(item, mode)) else s
    case Taken(item, mode) =>
      if mode.Running? && s.life.phase.Stopped? then Discard(s, item).(writer := Discarding)
      else s.(writer := Loading(item, mode))
    case Loading(item, mode) => s.(writer := InSink(item, s.counters.pending, mode))
    case InSink(item, pending, mode) => Logged(s, Emission(item, pending, sinkOk), mode)
    case Clearing(reported, mode) =>
      s.(writer := if s.counters.pending < reported then After(mode) else Swapping(reported, s.counters.pending, mode))
    case Swapping(reported, current, mode) =>
      if s.counters.pending == current && reported <= current
      then s.(counters := s.counters.(pending := current - reported), writer := After(mode))
      else s.(writer := Clearing(reported, mode))
    case _ => s
  }

  function Discard(s: State, item: Item): State { s.(log := s.log.(discarded := s.log.discarded + [item])) }

  function Logged(s: State, e: Emission, mode: Mode): State {
    s.(log := s.log.(emitted := s.log.emitted + [e]),
       counters := if e.ok then s.counters else s.counters.(sinkErrors := s.counters.sinkErrors + 1),
       writer := if e.ok && 0 < e.reported then Clearing(e.reported, mode) else After(mode))
  }

  /** Emptying the queue after an abort, and leaving. */
  function WindUp(s: State): State {
    match s.writer
    case Discarding =>
      if s.queue == [] then s.(writer := Finishing)
      else Discard(s, s.queue[0]).(queue := s.queue[1..], writer := Discarded)
    case Discarded =>
      if s.holder.Free? then s.(counters := s.counters.(depth := s.counters.depth - 1), writer := Discarding) else s
    case Finishing => s.(life := s.life.(phase := Stopped), writer := ClosingDone)
    case ClosingDone => s.(life := s.life.(doneClosed := true), writer := Exited)
    case _ => s
  }

  function Run(events: seq<Event>): State
    decreases |events|
  {
    if events == [] then START else Step(Run(events[..|events| - 1]), events[|events| - 1])
  }

  // ---- The invariant ----

  function Items(emitted: seq<Emission>): seq<Item> {
    seq(|emitted|, i requires 0 <= i < |emitted| => emitted[i].item)
  }

  /** Drops reported by emissions the sink took. */
  function Reported(emitted: seq<Emission>): nat {
    if emitted == [] then 0
    else
      var last := emitted[|emitted| - 1];
      Reported(emitted[..|emitted| - 1]) + (if last.ok then last.reported else 0)
  }

  /** The record the writer has taken from the queue but not yet handed over. */
  function InHand(w: Writer): seq<Item> {
    if w.Received? || w.Taken? || w.Loading? || w.InSink? then [w.item] else []
  }

  /** Drops reported by a successful emission and not yet taken off the pending count. */
  function Uncleared(w: Writer): nat { if w.Clearing? || w.Swapping? then w.reported else 0 }

  /** A record is out of the queue and still counted. */
  function Uncounted(w: Writer): nat { if w.Received? || w.Discarded? then 1 else 0 }

  predicate Leaving(w: Writer) { w.Finishing? || w.ClosingDone? || w.Exited? }

  predicate GivesUp(w: Writer) { w.Discarding? || w.Discarded? }

  predicate Draws(w: Writer) {
    w.DrainTop? || w.DrainSelecting? || Leaving(w) || (Delivers(w) && w.mode.DrainingQueue?)
  }

  /** Nothing accepted is lost, repeated or reordered; only an abort discards. */
  predicate Conserved(log: History, queue: seq<Item>, w: Writer, aborted: bool) {
    && log.accepted == Items(log.emitted) + log.discarded + InHand(w) + queue
    && (log.discarded != [] ==> aborted && (GivesUp(w) || Leaving(w)))
  }

  predicate DropsBalance(c: Counters, emitted: seq<Emission>, w: Writer, h: Holder) {
    && c.total + Uncleared(w) == c.pending + Reported(emitted) + (if h.CountPending? then 1 else 0)
    && c.refused == c.total + (if h.CountTotal? then 1 else 0)
    && Uncleared(w) <= c.pending
    && (w.InSink? ==> w.pending <= c.pending)
    && (w.Swapping? ==> w.reported <= w.current <= c.pending)
  }

  predicate DepthExact(c: Counters, queue: seq<Item>, w: Writer, h: Holder) {
    && c.depth == |queue| + Uncounted(w) - (if h.CountDepth? then 1 else 0)
    && |queue| <= QUEUE_CAPACITY
    && (h.CountDepth? ==> queue != [] || Uncounted(w) == 1)
    && (if h.RaiseHighWater? then c.depth == h.depth else c.depth <= c.highWater)
    && 0 <= c.highWater <= QUEUE_CAPACITY + 1
  }

  predicate Lifecycle(life: Life, queue: seq<Item>, w: Writer, h: Holder) {
    && (h.Admitted? ==> life.phase.Open?)
    && (life.drainClosed || h.CloseDrain? ==> !life.phase.Open?)
    && (h.CloseDrain? ==> !life.drainClosed)
    && (life.phase.Open? || life.drainClosed || life.abortClosed || h.CloseDrain? || h.CloseAbort?)
    && (life.aborted ==> life.phase.Stopped?)
    && (life.abortClosed || h.CloseAbort? || h.CloseDone? ==> life.aborted)
    && (h.CloseAbort? || h.StoreStopped? ==> !life.abortClosed)
    && (Draws(w) ==> !life.phase.Open?)
    && (GivesUp(w) ==> life.aborted)
    && (life.phase.Stopped? ==> life.aborted || w.ClosingDone? || w.Exited?)
    && (w.ClosingDone? || w.Exited? ==> life.phase.Stopped?)
    && (Leaving(w) ==> queue == [])
    && (life.doneClosed ==> life.aborted || w.Exited?)
    && (w.Exited? ==> life.doneClosed)
  }

  predicate Inv(s: State) {
    && Conserved(s.log, s.queue, s.writer, s.life.aborted)
    && DropsBalance(s.counters, s.log.emitted, s.writer, s.holder)
    && DepthExact(s.counters, s.queue, s.writer, s.holder)
    && Lifecycle(s.life, s.queue, s.writer, s.holder)
  }

  // ---- Every step keeps it ----

  lemma {:induction false} ItemsGrow(emitted: seq<Emission>, e: Emission)
    ensures Items(emitted + [e]) == Items(emitted) + [e.item]
    ensures Reported(emitted + [e]) == Reported(emitted) + (if e.ok then e.reported else 0)
  {
    assert (emitted + [e])[..|emitted|] == emitted;
  }

  lemma ReceiveKeepsInv(s: State, mode: Mode)
    requires Inv(s) && s.queue != [] && s.writer == if mode.Running? then Selecting else DrainSelecting
    ensures Inv(Receive(s, mode))
  {
    hide Reported, Items;
    assert s.queue == [s.queue[0]] + s.queue[1..];
  }

  lemma PollKeepsInv(s: State, choice: Choice)
    requires Inv(s) && Polls(s.writer)
    ensures Inv(Poll(s, choice))
  {
    hide Reported, Items, Receive;
    if s.queue != [] && s.writer.Selecting? { ReceiveKeepsInv(s, Running); }
    if s.queue != [] && s.writer.DrainSelecting? { ReceiveKeepsInv(s, DrainingQueue); }
  }

  lemma FetchKeepsInv(s: State, sinkOk: bool)
    requires Inv(s) && (s.writer.Received? || s.writer.Taken? || s.writer.Loading?)
    ensures Inv(Deliver(s, sinkOk))
  {
    hide Reported, Items;
  }

  lemma SinkKeepsInv(s: State, sinkOk: bool)
    requires Inv(s) && s.writer.InSink?
    ensures Inv(Deliver(s, sinkOk))
  {
    hide Reported, Items;
    ItemsGrow(s.log.emitted, Emission(s.writer.item, s.writer.pending, sinkOk));
  }

  lemma ClearKeepsInv(s: State, sinkOk: bool)
    requires Inv(s) && (s.writer.Clearing? || s.writer.Swapping?)
    ensures Inv(Deliver(s, sinkOk))
  {
    hide Reported, Items;
  }

  lemma DiscardKeepsInv(s: State)
    requires Inv(s) && GivesUp(s.writer)
    ensures Inv(WindUp(s))
  {
    hide Reported, Items;
    if s.queue != [] { assert s.queue == [s.queue[0]] + s.queue[1..]; }
  }

  lemma LeaveKeepsInv(s: State)
    requires Inv(s) && Leaving(s.writer)
    ensures Inv(WindUp(s))
  {
    hide Reported, Items;
  }

  lemma EnqueueKeepsInv(s: State)
    requires Inv(s) && (s.holder.Entered? || s.holder.Admitted?)
    ensures Inv(Enqueue(s))
  {
    hide Reported, Items;
  }

  lemma CountKeepsInv(s: State)
    requires Inv(s)
    requires s.holder.CountDepth? || s.holder.RaiseHighWater? || s.holder.CountTotal? || s.holder.CountPending?
    ensures Inv(Step(s, HolderStep))
  {
    hide Reported, Items, Conserved, Poll, Deliver, WindUp, Enqueue;
  }

  lemma AnnounceKeepsInv(s: State)
    requires Inv(s)
    requires s.holder.CloseDrain? || s.holder.StoreStopped? || s.holder.CloseAbort? || s.holder.CloseDone?
    ensures Inv(Step(s, HolderStep))
  {
    hide Reported, Items, Poll, Deliver, WindUp, Enqueue;
  }

  lemma RequestKeepsInv(s: State, e: Event)
    requires Inv(s) && (e.Handle? || e.BeginDrain? || e.Abort?)
    ensures Inv(Step(s, e))
  {
    hide Reported, Items, Poll, Deliver, WindUp;
  }

  lemma StepKeepsInv(s: State, e: Event)
    requires Inv(s)
    ensures Inv(Step(s, e))
  {
    hide Inv, Poll, Deliver, WindUp;
    if e.HolderStep? {
      if s.holder.Entered? || s.holder.Admitted? {
        hide Enqueue;
        EnqueueKeepsInv(s);
      } else if s.holder.CloseDrain? || s.holder.StoreStopped? || s.holder.CloseAbort? || s.holder.CloseDone? {
        AnnounceKeepsInv(s);
      } else if !s.holder.Free? {
        CountKeepsInv(s);
      }
    } else if e.WriterStep? {
      if Polls(s.writer) {
        PollKeepsInv(s, e.choice);
      } else if Delivers(s.writer) {
        if s.writer.InSink? {
          SinkKeepsInv(s, e.sinkOk);
        } else if s.writer.Clearing? || s.writer.Swapping? {
          ClearKeepsInv(s, e.sinkOk);
        } else {
          FetchKeepsInv(s, e.sinkOk);
        }
      } else {
        if Leaving(s.writer) { LeaveKeepsInv(s); } else { DiscardKeepsInv(s); }
      }
    } else {
      RequestKeepsInv(s, e);
    }
  }

  lemma StartKeepsInv()
    ensures Inv(START)
  {
    NothingYet();
    hide Conserved, DropsBalance, DepthExact, Lifecycle, Items, Reported;
  }

  lemma NothingYet()
    ensures Conserved(START.log, START.queue, START.writer, START.life.aborted)
    ensures DropsBalance(START.counters, START.log.emitted, START.writer, START.holder)
    ensures DepthExact(START.counters, START.queue, START.writer, START.holder)
    ensures Lifecycle(START.life, START.queue, START.writer, START.holder)
  {
    assert Items([]) == [];
  }

  lemma {:induction false} RunKeepsInv(events: seq<Event>)
    ensures Inv(Run(events))
    decreases |events|
  {
    StartKeepsInv();
    hide Step, Inv;
    if events != [] {
      RunKeepsInv(events[..|events| - 1]);
      StepKeepsInv(Run(events[..|events| - 1]), events[|events| - 1]);
    }
  }

  // ---- What every interleaving guarantees ----

  /** Records reach the sink in the order they were accepted, none skipped and none twice. */
  lemma EmissionsKeepOrder(events: seq<Event>)
    ensures var s := Run(events); Items(s.log.emitted) <= s.log.accepted
  {
    RunKeepsInv(events);
  }

  /**
   Refused records are counted once: at rest the total is what is still pending plus
   what emissions the sink took have reported, and in between it is off by what is in progress.
   */
  lemma DropsAreAccounted(events: seq<Event>)
    ensures var s := Run(events);
      && s.counters.total + Uncleared(s.writer)
         == s.counters.pending + Reported(s.log.emitted) + (if s.holder.CountPending? then 1 else 0)
      && (s.holder.Free? && !s.writer.Clearing? && !s.writer.Swapping? ==>
            s.counters.refused == s.counters.total == s.counters.pending + Reported(s.log.emitted))
  {
    RunKeepsInv(events);
  }

  /** How many records producers brought to the lock. */
  function Brought(events: seq<Event>): nat
    decreases |events|
  {
    if events == [] then 0
    else
      var most, last := events[..|events| - 1], events[|events| - 1];
      Brought(most) + if last.Handle? && Run(most).holder.Free? then 1 else 0
  }

  lemma BroughtStep(s: State, e: Event)
    ensures var t := Step(s, e);
      |t.log.accepted| + t.counters.refused + (if t.holder.Entered? || t.holder.Admitted? then 1 else 0)
      == |s.log.accepted| + s.counters.refused + (if s.holder.Entered? || s.holder.Admitted? then 1 else 0)
         + (if e.Handle? && s.holder.Free? then 1 else 0)
  {
    hide Items, Reported;
  }

  /** Every record brought to the handler is accepted or refused, once, and every refusal is counted. */
  lemma {:induction false} EveryRecordIsAnswered(events: seq<Event>)
    ensures var s := Run(events);
      && Brought(events) == |s.log.accepted| + s.counters.refused
                            + (if s.holder.Entered? || s.holder.Admitted? then 1 else 0)
      && (s.holder.Free? ==> Brought(events) == |s.log.accepted| + s.counters.total)
    decreases |events|
  {
    if events != [] {
      var most := events[..|events| - 1];
      hide Step;
      EveryRecordIsAnswered(most);
      BroughtStep(Run(most), events[|events| - 1]);
    }
    RunKeepsInv(events);
    hide Run;
  }

  lemma HighWaterStep(s: State, e: Event)
    requires Inv(s)
    ensures var t := Step(s, e);
      && (t.counters.highWater == s.counters.highWater || t.counters.highWater == s.counters.depth)
      && s.counters.highWater <= t.counters.highWater
  {
    hide Items, Reported, Conserved, DropsBalance;
  }

  /** The depth after the first `i` events. */
  function DepthAt(events: seq<Event>, i: nat): int
    requires i <= |events|
  {
    Run(events[..i]).counters.depth
  }

  lemma DepthEarlier(events: seq<Event>, i: nat)
    requires i < |events|
    ensures DepthAt(events, i) == DepthAt(events[..|events| - 1], i)
  {
    assert events[..|events| - 1][..i] == events[..i];
  }

  /** The high-water mark is a depth that was really reached. */
  lemma {:induction false} HighWaterWasReached(events: seq<Event>) returns (peak: nat)
    ensures peak <= |events| && DepthAt(events, peak) == Run(events).counters.highWater
    decreases |events|
  {
    if events == [] { return 0; }
    var most := events[..|events| - 1];
    peak := HighWaterWasReached(most);
    DepthEarlier(events, peak);
    RunKeepsInv(most);
    HighWaterStep(Run(most), events[|events| - 1]);
    if Run(events).counters.highWater != Run(most).counters.highWater {
      peak := |most|;
    }
  }

  /** And no depth since was higher, apart from one that is just being recorded. */
  lemma {:induction false} HighWaterIsPeak(events: seq<Event>, i: nat)
    requires i <= |events| && !Run(events[..i]).holder.RaiseHighWater?
    ensures DepthAt(events, i) <= Run(events).counters.highWater
    decreases |events|
  {
    if i == |events| {
      assert events[..i] == events;
      RunKeepsInv(events);
    } else {
      var most := events[..|events| - 1];
      DepthEarlier(events, i);
      assert most[..i] == events[..i];
      HighWaterIsPeak(most, i);
      RunKeepsInv(most);
      HighWaterStep(Run(most), events[|events| - 1]);
    }
    hide Inv;
  }

  /** The depth is never negative and exceeds the capacity by at most the record just received. */
  lemma DepthStaysInBounds(events: seq<Event>)
    ensures var s := Run(events);
      && 0 <= s.counters.depth <= QUEUE_CAPACITY + 1 && 0 <= s.counters.highWater <= QUEUE_CAPACITY + 1
      && (s.holder.Free? ==> |s.queue| <= s.counters.depth <= |s.queue| + 1 && s.counters.depth <= s.counters.highWater)
  {
    RunKeepsInv(events);
  }

  /**
   The handler is seen stopped, or `done` closed, with no abort before: everything
   accepted was handed over exactly once, in order. This is when Shutdown returns nil.
   */
  lemma CleanShutdownEmitsEverything(events: seq<Event>)
    requires var s := Run(events); (s.life.phase.Stopped? || s.life.doneClosed) && !s.life.aborted
    ensures var s := Run(events); Items(s.log.emitted) == s.log.accepted && s.queue == [] && s.log.discarded == []
  {
    RunKeepsInv(events);
  }

  function Rank(p: Phase): nat {
    match p
    case Open => 0
    case Draining => 1
    case Stopped => 2
  }

  predicate Advances(s: State, t: State) {
    && Rank(s.life.phase) <= Rank(t.life.phase)
    && (s.life.aborted ==> t.life.aborted) && (s.life.doneClosed ==> t.life.doneClosed)
    && s.log.accepted <= t.log.accepted && s.log.emitted <= t.log.emitted
    && (!s.life.phase.Open? ==> t.log.accepted == s.log.accepted)
  }

  lemma WriterStepAdvances(s: State, choice: Choice, sinkOk: bool)
    ensures Advances(s, Step(s, WriterStep(choice, sinkOk)))
  {
    hide Items, Reported;
    var t := if Polls(s.writer) then Poll(s, choice) else if Delivers(s.writer) then Deliver(s, sinkOk) else WindUp(s);
    assert t.log.accepted == s.log.accepted && (t.life == s.life || Leaving(s.writer));
  }

  lemma StepAdvances(s: State, e: Event)
    requires Inv(s)
    ensures Advances(s, Step(s, e))
  {
    hide Conserved, DropsBalance, DepthExact, Items, Reported, Poll, Deliver, WindUp;
    if e.WriterStep? {
      hide Step;
      WriterStepAdvances(s, e.choice, e.sinkOk);
    }
  }

  /** The state only moves from open to draining to stopped, and nothing is accepted after it left open. */
  lemma {:induction false} PhaseOnlyAdvances(events: seq<Event>, i: nat)
    requires i <= |events|
    ensures Advances(Run(events[..i]), Run(events))
    decreases |events|
  {
    if i == |events| {
      assert events[..i] == events;
    } else {
      var most := events[..|events| - 1];
      assert most[..i] == events[..i];
      PhaseOnlyAdvances(most, i);
      RunKeepsInv(most);
      StepAdvances(Run(most), events[|events| - 1]);
      hide Step;
    }
  }

  /** One if, once an abort was stored, the writer is past its last look at the phase with a record at hand. */
  function LastWord(w: Writer, queue: seq<Item>): nat {
    if (w.DrainSelecting? && queue != []) || w.Loading? || w.InSink?
       || ((w.Received? || w.Taken?) && w.mode.DrainingQueue?) then 1 else 0
  }

  lemma PollAfterAbort(s: State, choice: Choice)
    requires s.life.phase.Stopped? && Polls(s.writer)
    ensures var t := Poll(s, choice);
      |t.log.emitted| + LastWord(t.writer, t.queue) <= |s.log.emitted| + LastWord(s.writer, s.queue)
  {
  }

  lemma DeliverAfterAbort(s: State, sinkOk: bool)
    requires s.life.phase.Stopped? && Delivers(s.writer)
    ensures var t := Deliver(s, sinkOk);
      |t.log.emitted| + LastWord(t.writer, t.queue) <= |s.log.emitted| + LastWord(s.writer, s.queue)
  {
  }

  lemma AbortStep(s: State, e: Event)
    requires Inv(s) && s.life.aborted
    ensures var t := Step(s, e);
      && t.life.aborted
      && |t.log.emitted| + LastWord(t.writer, t.queue) <= |s.log.emitted| + LastWord(s.writer, s.queue)
  {
    StepAdvances(s, e);
    hide Conserved, DropsBalance, DepthExact, Items, Reported, Poll, Deliver, LastWord;
    if e.WriterStep? {
      if Polls(s.writer) {
        PollAfterAbort(s, e.choice);
      } else if Delivers(s.writer) {
        DeliverAfterAbort(s, e.sinkOk);
      } else {
        NoWordsLeft(s);
      }
    }
  }

  lemma NoWordsLeft(s: State)
    requires !Polls(s.writer) && !Delivers(s.writer)
    ensures LastWord(s.writer, s.queue) == LastWord(WindUp(s).writer, WindUp(s).queue) == 0
    ensures WindUp(s).log.emitted == s.log.emitted
  {
  }

  lemma {:induction false} AbortSilences(s: State, more: seq<Event>)
    requires Inv(s) && s.life.aborted
    ensures |Continue(s, more).log.emitted| <= |s.log.emitted| + LastWord(s.writer, s.queue)
    decreases |more|
  {
    if more != [] {
      hide Step, Inv, LastWord;
      StepKeepsInv(s, more[0]);
      AbortStep(s, more[0]);
      AbortSilences(Step(s, more[0]), more[1..]);
    }
  }

  /** How far the writer is from handing over its last record. */
  function WordDistance(w: Writer): nat {
    match w
    case DrainSelecting => 4
    case Received(_, _) => 3
    case Taken(_, _) => 2
    case Loading(_, _) => 1
    case _ => 0
  }

  lemma WordDraws(s: State)
    requires s.holder.Free? && LastWord(s.writer, s.queue) == 1 && !s.writer.InSink?
    ensures var t := Step(s, WriterStep(TakeQueue, true));
      && t.holder.Free? && t.life == s.life && t.log.emitted == s.log.emitted
      && LastWord(t.writer, t.queue) == 1 && WordDistance(t.writer) < WordDistance(s.writer)
  {
    hide WindUp;
  }

  lemma WordWaits(s: State)
    requires Inv(s) && s.life.aborted && !s.holder.Free?
    ensures var t := Step(s, HolderStep);
      && t.life.aborted && t.log.emitted == s.log.emitted && t.writer == s.writer && t.queue == s.queue
      && HolderWork(t.holder) < HolderWork(s.holder)
  {
    HolderAdvances(s);
    hide Conserved, DropsBalance, DepthExact, Items, Reported, Poll, Deliver, WindUp;
  }

  /** From such a position the record does reach the sink in some continuation. */
  lemma {:induction false} LastWordIsSpoken(s: State) returns (more: seq<Event>)
    requires Inv(s) && s.life.aborted && LastWord(s.writer, s.queue) == 1
    ensures |Continue(s, more).log.emitted| == |s.log.emitted| + 1
    decreases HolderWork(s.holder), WordDistance(s.writer)
  {
    var e := if s.holder.Free? then WriterStep(TakeQueue, true) else HolderStep;
    if s.holder.Free? && s.writer.InSink? {
      more := [e];
      assert Continue(s, more) == Continue(Step(s, e), []);
      return;
    }
    if s.holder.Free? { WordDraws(s); } else { WordWaits(s); }
    hide Step, Inv, LastWord;
    StepKeepsInv(s, e);
    var rest := LastWordIsSpoken(Step(s, e));
    more := [e] + rest;
    assert more[1..] == rest;
  }

  /**
   After an abort at most one more record reaches the sink, and whether one still can depends on the
   writer's position alone: it can exactly if the writer is past its last look with a record at hand.
   */
  lemma AtMostOneAfterAbort(events: seq<Event>)
    requires Run(events).life.aborted
    ensures var s := Run(events);
      && (forall more :: |Continue(s, more).log.emitted| <= |s.log.emitted| + 1)
      && ((exists more :: |Continue(s, more).log.emitted| == |s.log.emitted| + 1) <==> LastWord(s.writer, s.queue) == 1)
  {
    RunKeepsInv(events);
    var s := Run(events);
    hide Run, Inv, Continue;
    forall more ensures |Continue(s, more).log.emitted| <= |s.log.emitted| + LastWord(s.writer, s.queue) {
      AbortSilences(s, more);
    }
    if LastWord(s.writer, s.queue) == 1 {
      var more := LastWordIsSpoken(s);
    }
  }

  lemma RunFurther(events: seq<Event>, e: Event)
    ensures Run(events + [e]) == Step(Run(events), e)
  {
    assert (events + [e])[..|events|] == events;
  }

  /** The late record does occur: accepted and taken from the queue before the abort, emitted after it. */
  lemma LateEmissionOccurs(item: Item) returns (events: seq<Event>)
    ensures var s := Run(events);
      && s.life.aborted && s.log == History([item], [], []) && LastWord(s.writer, s.queue) == 1
  {
    events := AcceptAndTake(item);
    var s := Run(events);
    hide Run;
    RunFurther(events, Abort);
    RunFurther(events + [Abort], HolderStep);
    events := events + [Abort] + [HolderStep];
  }

  lemma AcceptAndTake(item: Item) returns (events: seq<Event>)
    ensures var s := Run(events);
      && s.life == START.life && s.holder.Free? && s.log == History([item], [], [])
      && s.queue == [] && s.writer == Loading(item, Running)
  {
    events := Accept(item);
    hide Run;
    for i := 0 to 4
      invariant var s := Run(events);
        && s.life == START.life && s.holder.Free? && s.log == History([item], [], [])
        && s.queue == (if i <= 1 then [item] else [])
        && s.writer == (match i case 0 => Top case 1 => Selecting case 2 => Received(item, Running)
                        case 3 => Taken(item, Running) case _ => Loading(item, Running))
    {
      RunFurther(events, WriterStep(TakeQueue, true));
      events := events + [WriterStep(TakeQueue, true)];
    }
  }

  lemma Accept(item: Item) returns (events: seq<Event>)
    ensures var s := Run(events);
      && s.life == START.life && s.holder.Free? && s.log == History([item], [], [])
      && s.queue == [item] && s.writer == Top
  {
    events := [];
    assert Run(events) == START;
    hide Run;
    RunFurther(events, Handle(item));
    events := events + [Handle(item)];
    for i := 0 to 4
      invariant var s := Run(events);
        && s.life == START.life && s.writer == Top
        && s.log == History(if i <= 1 then [] else [item], [], []) && s.queue == (if i <= 1 then [] else [item])
        && (match i case 0 => s.holder == Entered(item) case 1 => s.holder == Admitted(item) case 2 => s.holder == CountDepth
            case 3 => s.holder.RaiseHighWater? case _ => s.holder.Free?)
    {
      RunFurther(events, HolderStep);
      events := events + [HolderStep];
    }
  }

  /** Each of the two broadcast channels is closed by one step only; closing twice would panic. */
  lemma ChannelsCloseOnce(events: seq<Event>)
    ensures var s := Run(events);
      && (s.holder.CloseDrain? ==> !s.life.drainClosed)
      && (s.holder.CloseAbort? ==> !s.life.abortClosed)
  {
    RunKeepsInv(events);
  }

  // ---- The drain completes ----

  /** Steps left for the holder of the mutex. */
  function HolderWork(h: Holder): nat {
    match h
    case Free => 0
    case Entered(_) => 4
    case Admitted(_) => 3
    case CountDepth => 2
    case RaiseHighWater(_) => 1
    case CountTotal => 2
    case CountPending => 1
    case CloseDrain => 1
    case StoreStopped => 3
    case CloseAbort => 2
    case CloseDone => 1
  }

  /** Steps left for the writer until it next waits for a record; a stale swap has to be repeated. */
  function Distance(w: Writer, pending: nat): nat {
    match w
    case Exited => 0
    case ClosingDone => 1
    case Finishing => 2
    case Discarding => 3
    case Discarded => 4
    case DrainSelecting => 5
    case DrainTop => 6
    case Selecting => 7
    case Top => 8
    case Swapping(_, current, _) => if current == pending then 9 else 11
    case Clearing(_, _) => 10
    case InSink(_, _, _) => 12
    case Loading(_, _) => 13
    case Taken(_, _) => 14
    case Received(_, _) => 15
  }

  function WriterWork(s: State): nat { 20 * |s.queue| + Distance(s.writer, s.counters.pending) }

  /** The case a writer that waits can always take once the handler left the open state. */
  function ReadyChoice(s: State): Choice {
    if s.life.abortClosed then TakeAbort else if s.queue != [] then TakeQueue else TakeDrain
  }

  lemma WriterAdvances(s: State, sinkOk: bool)
    requires Inv(s) && !s.life.phase.Open? && s.holder.Free? && !s.writer.Exited?
    ensures var t := Step(s, WriterStep(ReadyChoice(s), sinkOk));
      t.holder.Free? && !t.life.phase.Open? && WriterWork(t) < WriterWork(s)
  {
    hide Conserved, DepthExact, Items, Reported;
  }

  lemma HolderAdvances(s: State)
    requires Inv(s) && !s.life.phase.Open? && !s.holder.Free?
    ensures var t := Step(s, HolderStep); HolderWork(t.holder) < HolderWork(s.holder) && !t.life.phase.Open?
  {
    hide Conserved, DropsBalance, DepthExact, Items, Reported, Poll, Deliver, WindUp;
  }

  function Continue(s: State, events: seq<Event>): State
    decreases |events|
  {
    if events == [] then s else Continue(Step(s, events[0]), events[1..])
  }

  /**
   Once the handler has left the open state its writer can always reach the end, whatever the
   sink answers: there are steps of the lock holder and the writer alone that close `done`.
   */
  lemma {:induction false} DrainCompletes(s: State, answers: nat -> bool, n: nat) returns (events: seq<Event>)
    requires Inv(s) && !s.life.phase.Open?
    ensures forall i | 0 <= i < |events| ::
      events[i].HolderStep? || (events[i].WriterStep? && events[i].sinkOk == answers(n + i))
    ensures var t := Continue(s, events); t.writer.Exited? && t.life.doneClosed && t.queue == []
    decreases HolderWork(s.holder), WriterWork(s)
  {
    hide Conserved, DropsBalance, DepthExact, Items, Reported, Poll, Deliver, WindUp, Step;
    if s.writer.Exited? { return []; }
    var e := if s.holder.Free? then WriterStep(ReadyChoice(s), answers(n)) else HolderStep;
    StepKeepsInv(s, e);
    if s.holder.Free? { WriterAdvances(s, answers(n)); } else { HolderAdvances(s); }
    var rest := DrainCompletes(Step(s, e), answers, n + 1);
    events := [e] + rest;
    assert events[1..] == rest;
    forall i | 0 <= i < |events|
      ensures events[i].HolderStep? || (events[i].WriterStep? && events[i].sinkOk == answers(n + i))
    {
      if 0 < i { assert events[i] == rest[i - 1]; }
    }
  }
}
