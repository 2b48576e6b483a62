/**
 The log handler's methods over its fields. Each method takes exactly the steps of
 `Asynclog` that it returns, and its effect on queue and counters is stated beside
 them. They run without interruption, except for `ClearReportedDrops`, whose loop
 exists because other goroutines get between its load and its swap.
 */
module AsynclogCore {
  import opened Asynclog

  lemma {:induction false} ContinueFurther(s: State, steps: seq<Event>, more: seq<Event>)
    ensures Continue(s, steps + more) == Continue(Continue(s, steps), more)
    decreases |steps|
  {
    if steps == [] {
      assert steps + more == more;
    } else {
      assert (steps + more)[0] == steps[0] && (steps + more)[1..] == steps[1..] + more;
      ContinueFurther(Step(s, steps[0]), steps[1..], more);
    }
  }

  lemma OneStep(s: State, steps: seq<Event>, e: Event)
    ensures Continue(s, steps + [e]) == Step(Continue(s, steps), e)
  {
    ContinueFurther(s, steps, [e]);
    assert Continue(Continue(s, steps), [e]) == Continue(Step(Continue(s, steps), e), []);
  }

  /** The state once a record was handed over with the drops pending at that moment. */
  ghost function Emitted(s: State, e: Emission, mode: Mode): State {
    s.(log := s.log.(emitted := s.log.emitted + [e]),
       counters := if e.ok then s.counters.(pending := 0) else s.counters.(sinkErrors := s.counters.sinkErrors + 1),
       writer := After(mode))
  }

  /** The state once reported drops were taken off the count and nobody else moved. */
  ghost function Cleared(s: State, reported: nat, mode: Mode): State {
    s.(counters := if s.counters.pending < reported then s.counters
                   else s.counters.(pending := s.counters.pending - reported),
       writer := After(mode))
  }

  class Core {
    var phase: Phase
    var queue: seq<Item>
    var drainClosed: bool
    var abortClosed: bool
    var doneClosed: bool
    var depth: int
    var highWater: int
    var totalDrops: nat
    var pendingDrops: nat
    var sinkErrors: nat
    ghost var aborted: bool
    ghost var refused: nat
    ghost var log: History
    ghost var holder: Holder
    ghost var writer: Writer

    constructor ()
      ensures Contents() == START
    {
      phase, queue, drainClosed, abortClosed, doneClosed := Open, [], false, false, false;
      depth, highWater, totalDrops, pendingDrops, sinkErrors := 0, 0, 0, 0, 0;
      aborted, refused, log, holder, writer := false, 0, History([], [], []), Free, Top;
    }

    ghost function Contents(): State
      reads this
    {
      State(Life(phase, drainClosed, abortClosed, doneClosed, aborted), queue,
            Counters(depth, highWater, totalDrops, pendingDrops, refused, sinkErrors), log, holder, writer)
    }

    /** Enqueues a record if the handler is open and has room, and counts a drop otherwise. */
    method Handle(item: Item) returns (ghost steps: seq<Event>)
      requires holder.Free?
      modifies this`queue, this`depth, this`highWater, this`totalDrops, this`pendingDrops, this`refused, this`log,
               this`holder
      ensures Contents() == Continue(old(Contents()), steps) && holder.Free?
      ensures log.emitted == old(log).emitted
      ensures if old(phase).Open? && |old(queue)| < QUEUE_CAPACITY
        then queue == old(queue) + [item] && depth == old(depth) + 1 && totalDrops == old(totalDrops)
             && pendingDrops == old(pendingDrops) && old(highWater) <= highWater && depth <= highWater
        else queue == old(queue) && depth == old(depth) && totalDrops == old(totalDrops) + 1
             && pendingDrops == old(pendingDrops) + 1
    {
      hide Continue, Poll, Deliver, WindUp, Enqueue, Counted, AfterCount, Announced;
      ghost var start := Contents();
      Begin(start);
      holder := Entered(item);
      steps := Taken(start, [], Event.Handle(item));
      hide Step;
      ghost var rest: seq<Event>;
      if !phase.Open? {
        rest := Drop();
      } else {
        rest := Offer(item);
      }
      ContinueFurther(start, steps, rest);
      steps := steps + rest;
    }

    /** The nonblocking send, and the depth it leads to. */
    method Offer(item: Item) returns (ghost steps: seq<Event>)
      requires holder == Entered(item) && phase.Open?
      modifies this`queue, this`depth, this`highWater, this`totalDrops, this`pendingDrops, this`refused, this`log,
               this`holder
      ensures Contents() == Continue(old(Contents()), steps) && holder.Free?
      ensures log.emitted == old(log).emitted
      ensures if |old(queue)| < QUEUE_CAPACITY
        then queue == old(queue) + [item] && depth == old(depth) + 1 && totalDrops == old(totalDrops)
             && pendingDrops == old(pendingDrops) && old(highWater) <= highWater && depth <= highWater
        else queue == old(queue) && depth == old(depth) && totalDrops == old(totalDrops) + 1
             && pendingDrops == old(pendingDrops) + 1
    {
      hide Continue, Poll, Deliver, WindUp, Counted, AfterCount, Announced;
      ghost var start := Contents();
      Begin(start);
      holder := Admitted(item);
      steps := Taken(start, [], HolderStep);
      ghost var rest: seq<Event>;
      if |queue| < QUEUE_CAPACITY {
        queue := queue + [item];
        log, holder := log.(accepted := log.accepted + [item]), CountDepth;
        steps := Taken(start, steps, HolderStep);
        rest := RecordDepth();
      } else {
        rest := Drop();
      }
      hide Step, Enqueue;
      ContinueFurther(start, steps, rest);
      steps := steps + rest;
    }

    method RecordDepth() returns (ghost steps: seq<Event>)
      requires holder.CountDepth?
      modifies this`depth, this`highWater, this`holder
      ensures Contents() == Continue(old(Contents()), steps) && holder.Free?
      ensures depth == old(depth) + 1 && highWater == if old(highWater) < depth then depth else old(highWater)
    {
      hide Continue, Poll, Deliver, WindUp, Enqueue, Announced;
      ghost var start := Contents();
      Begin(start);
      depth := depth + 1;
      holder := RaiseHighWater(depth);
      steps := Taken(start, [], HolderStep);
      if highWater < depth { highWater := depth; }
      holder := Free;
      steps := Taken(start, steps, HolderStep);
    }

    /** The record is turned away. */
    method Drop() returns (ghost steps: seq<Event>)
      requires (holder.Entered? && !phase.Open?) || (holder.Admitted? && QUEUE_CAPACITY <= |queue|)
      modifies this`totalDrops, this`pendingDrops, this`refused, this`holder
      ensures Contents() == Continue(old(Contents()), steps) && holder.Free?
      ensures totalDrops == old(totalDrops) + 1 && pendingDrops == old(pendingDrops) + 1
    {
      hide Continue, Poll, Deliver, WindUp, Counted, AfterCount, Announced;
      ghost var start := Contents();
      Begin(start);
      refused, holder := refused + 1, CountTotal;
      steps := Taken(start, [], HolderStep);
      hide Step, Enqueue;
      ghost var counted := RecordDrop();
      ContinueFurther(start, steps, counted);
      steps := steps + counted;
    }

    /** The run so far, one step longer. */
    ghost method Taken(start: State, steps: seq<Event>, e: Event) returns (longer: seq<Event>)
      requires Contents() == Step(Continue(start, steps), e)
      ensures longer == steps + [e] && Contents() == Continue(start, longer)
    {
      OneStep(start, steps, e);
      longer := steps + [e];
    }

    method RecordDrop() returns (ghost steps: seq<Event>)
      requires holder.CountTotal?
      modifies this`totalDrops, this`pendingDrops, this`holder
      ensures Contents() == Continue(old(Contents()), steps) && holder.Free?
      ensures totalDrops == old(totalDrops) + 1 && pendingDrops == old(pendingDrops) + 1
    {
      hide Continue, Poll, Deliver, WindUp, Enqueue, Announced;
      ghost var start := Contents();
      Begin(start);
      totalDrops := totalDrops + 1;
      holder := CountPending;
      steps := Taken(start, [], HolderStep);
      pendingDrops := pendingDrops + 1;
      holder := Free;
      steps := Taken(start, steps, HolderStep);
    }

    method BeginDrain() returns (ghost steps: seq<Event>)
      requires holder.Free?
      modifies this`phase, this`drainClosed, this`holder
      ensures Contents() == Continue(old(Contents()), steps) && holder.Free?
      ensures if old(phase).Open? then phase.Draining? && drainClosed
        else phase == old(phase) && drainClosed == old(drainClosed)
    {
      hide Continue, Poll, Deliver, WindUp, Enqueue, Counted, AfterCount;
      ghost var start := Contents();
      Begin(start);
      steps := [];
      if phase.Open? {
        phase, holder := Draining, CloseDrain;
        steps := Taken(start, steps, Event.BeginDrain);
        drainClosed := true;
        holder := Free;
        steps := Taken(start, steps, HolderStep);
      }
    }

    method Abort() returns (ghost steps: seq<Event>)
      requires holder.Free?
      modifies this`phase, this`abortClosed, this`doneClosed, this`aborted, this`holder
      ensures Contents() == Continue(old(Contents()), steps) && holder.Free? && phase.Stopped?
      ensures !old(phase).Stopped? ==> abortClosed && doneClosed
      ensures old(phase).Stopped? ==> abortClosed == old(abortClosed) && doneClosed == old(doneClosed)
    {
      hide Continue, Poll, Deliver, WindUp, Enqueue, Counted, AfterCount;
      ghost var start := Contents();
      Begin(start);
      steps := [];
      if !phase.Stopped? {
        holder := StoreStopped;
        steps := Taken(start, steps, Event.Abort);
        phase := Stopped;
        aborted, holder := true, CloseAbort;
        steps := Taken(start, steps, HolderStep);
        hide Step, Announced;
        ghost var closed := CloseChannels();
        ContinueFurther(start, steps, closed);
        steps := steps + closed;
      }
    }

    method CloseChannels() returns (ghost steps: seq<Event>)
      requires holder.CloseAbort?
      modifies this`abortClosed, this`doneClosed, this`holder
      ensures Contents() == Continue(old(Contents()), steps) && holder.Free? && abortClosed && doneClosed
    {
      hide Continue, Poll, Deliver, WindUp, Enqueue, Counted, AfterCount;
      ghost var start := Contents();
      Begin(start);
      abortClosed := true;
      holder := CloseDone;
      steps := Taken(start, [], HolderStep);
      doneClosed := true;
      holder := Free;
      steps := Taken(start, steps, HolderStep);
    }

    /** Hands one record to the sink with the drops counted so far; reported drops are taken off the count. */
    method Emit(item: Item, mode: Mode) returns (ghost steps: seq<Event>)
      requires writer == Loading(item, mode)
      modifies this
      ensures Contents() == Continue(old(Contents()), steps)
      ensures exists ok :: Contents() == Emitted(old(Contents()), Emission(item, old(pendingDrops), ok), mode)
    {
      hide Continue, Poll, WindUp, Enqueue, Counted, AfterCount, Announced;
      ghost var start := Contents();
      Begin(start);
      var pending := pendingDrops;
      writer := InSink(item, pending, mode);
      steps := Taken(start, [], WriterStep(TakeQueue, true));
      var ok: bool := *;
      ghost var e := Emission(item, pending, ok);
      log := log.(emitted := log.emitted + [e]);
      if !ok {
        sinkErrors := sinkErrors + 1;
        writer := After(mode);
        steps := Taken(start, steps, WriterStep(TakeQueue, false));
        return;
      }
      writer := if 0 < pending then Clearing(pending, mode) else After(mode);
      steps := Taken(start, steps, WriterStep(TakeQueue, true));
      if 0 < pending {
        ghost var cleared := ClearReportedDrops(pending, mode, []);
        ContinueFurther(start, steps, cleared);
        steps := steps + cleared;
      }
    }

    /** One whole call of another goroutine. */
    method Interfere(call: Event) returns (ghost steps: seq<Event>)
      requires holder.Free? && (call.Handle? || call.BeginDrain? || call.Abort?)
      modifies this
      ensures Contents() == Continue(old(Contents()), steps) && holder.Free?
      ensures writer == old(writer) && log.emitted == old(log).emitted
      ensures old(totalDrops) <= totalDrops && pendingDrops - old(pendingDrops) == totalDrops - old(totalDrops)
    {
      hide Continue, Step;
      match call
      case Handle(item) => steps := Handle(item);
      case BeginDrain => steps := BeginDrain();
      case Abort => steps := Abort();
    }

    /**
     Takes reported drops off the count by compare-and-swap. The calls of other goroutines
     happen in order, any number of them between a load and the swap that follows it; each
     drop they count survives. A count below the report is left as it is.
     */
    method ClearReportedDrops(reported: nat, mode: Mode, others: seq<Event>) returns (ghost steps: seq<Event>)
      requires writer == Clearing(reported, mode) && (holder.Free? || others == [])
      requires forall i | 0 <= i < |others| :: others[i].Handle? || others[i].BeginDrain? || others[i].Abort?
      modifies this
      ensures Contents() == Continue(old(Contents()), steps) && writer == After(mode)
      ensures log.emitted == old(log).emitted && old(totalDrops) <= totalDrops
      ensures if old(pendingDrops) < reported then Contents() == old(Contents()).(writer := After(mode))
        else pendingDrops + reported == old(pendingDrops) + (totalDrops - old(totalDrops))
      ensures others == [] ==> Contents() == Cleared(old(Contents()), reported, mode)
    {
      hide Continue, Step;
      ghost var start := Contents();
      Begin(start);
      steps := [];
      var next := 0;
      while true
        invariant 0 <= next <= |others| && Contents() == Continue(start, steps)
        invariant writer == Clearing(reported, mode) && (holder.Free? || others == [])
        invariant log.emitted == start.log.emitted && start.counters.total <= totalDrops
        invariant pendingDrops - start.counters.pending == totalDrops - start.counters.total
        invariant if next == 0 then Contents() == start else reported <= start.counters.pending
        decreases |others| - next
      {
        ghost var more: seq<Event>;
        var current := pendingDrops;
        more := Load(reported, mode);
        ContinueFurther(start, steps, more);
        steps := steps + more;
        if current < reported { return; }
        var upto: nat :| next <= upto <= |others|;
        more := InterfereUpTo(others[next..upto]);
        ContinueFurther(start, steps, more);
        steps, next := steps + more, upto;
        var swapped: bool;
        swapped, more := CompareAndSwap(reported, current, mode);
        ContinueFurther(start, steps, more);
        steps := steps + more;
        if swapped { return; }
      }
    }

    /** The count was read; the swap follows unless it is below the report. */
    ghost method Load(reported: nat, mode: Mode) returns (steps: seq<Event>)
      requires writer == Clearing(reported, mode)
      modifies this`writer
      ensures Contents() == Continue(old(Contents()), steps)
      ensures writer == if pendingDrops < reported then After(mode) else Swapping(reported, pendingDrops, mode)
    {
      hide Continue, Poll, WindUp, Enqueue, Counted, AfterCount, Announced;
      ghost var start := Contents();
      Begin(start);
      writer := if pendingDrops < reported then After(mode) else Swapping(reported, pendingDrops, mode);
      steps := Taken(start, [], WriterStep(TakeQueue, true));
    }

    method CompareAndSwap(reported: nat, current: nat, mode: Mode) returns (swapped: bool, ghost steps: seq<Event>)
      requires writer == Swapping(reported, current, mode) && reported <= current
      modifies this`pendingDrops, this`writer
      ensures Contents() == Continue(old(Contents()), steps)
      ensures swapped == (old(pendingDrops) == current)
      ensures if swapped then pendingDrops == current - reported && writer == After(mode)
        else pendingDrops == old(pendingDrops) && writer == Clearing(reported, mode)
    {
      hide Continue, Poll, WindUp, Enqueue, Counted, AfterCount, Announced;
      ghost var start := Contents();
      Begin(start);
      swapped := pendingDrops == current;
      if swapped {
        pendingDrops := current - reported;
        writer := After(mode);
      } else {
        writer := Clearing(reported, mode);
      }
      steps := Taken(start, [], WriterStep(TakeQueue, true));
    }

    /** Calls of other goroutines, one after the other. */
    method InterfereUpTo(others: seq<Event>) returns (ghost steps: seq<Event>)
      requires holder.Free? || others == []
      requires forall i | 0 <= i < |others| :: others[i].Handle? || others[i].BeginDrain? || others[i].Abort?
      modifies this
      ensures Contents() == Continue(old(Contents()), steps) && (holder.Free? || others == [])
      ensures writer == old(writer) && log.emitted == old(log).emitted
      ensures old(totalDrops) <= totalDrops && pendingDrops - old(pendingDrops) == totalDrops - old(totalDrops)
      ensures others == [] ==> Contents() == old(Contents())
    {
      hide Continue, Step;
      ghost var start := Contents();
      Begin(start);
      steps := [];
      for i := 0 to |others|
        invariant Contents() == Continue(start, steps) && (holder.Free? || others == [])
        invariant writer == start.writer && log.emitted == start.log.emitted
        invariant start.counters.total <= totalDrops
        invariant pendingDrops - start.counters.pending == totalDrops - start.counters.total
        invariant i == 0 ==> Contents() == start
      {
        ghost var more := Interfere(others[i]);
        ContinueFurther(start, steps, more);
        steps := steps + more;
      }
    }

    /** After an abort the queue is emptied without a word. */
    method DiscardQueued() returns (ghost steps: seq<Event>)
      requires writer.Discarding? && holder.Free?
      modifies this`queue, this`depth, this`log, this`writer
      ensures Contents() == Continue(old(Contents()), steps) && writer.Finishing?
      ensures queue == [] && depth == old(depth) - |old(queue)|
      ensures log == old(log).(discarded := old(log).discarded + old(queue))
    {
      hide Continue, Poll, Deliver, Step, WindUp;
      ghost var start := Contents();
      Begin(start);
      steps := [];
      ghost var gone := 0;
      while queue != []
        invariant Contents() == Continue(start, steps) && writer.Discarding? && holder.Free?
        invariant gone <= |start.queue| && queue == start.queue[gone..] && depth == start.counters.depth - gone
        invariant log == start.log.(discarded := start.log.discarded + start.queue[..gone])
        decreases |queue|
      {
        assert start.queue[..gone + 1] == start.queue[..gone] + [queue[0]];
        ghost var one := DiscardOne();
        ContinueFurther(start, steps, one);
        steps, gone := steps + one, gone + 1;
      }
      ghost var left := LeaveQueue();
      ContinueFurther(start, steps, left);
      steps := steps + left;
    }

    method DiscardOne() returns (ghost steps: seq<Event>)
      requires writer.Discarding? && holder.Free? && queue != []
      modifies this`queue, this`depth, this`log, this`writer
      ensures Contents() == Continue(old(Contents()), steps) && writer.Discarding?
      ensures queue == old(queue)[1..] && depth == old(depth) - 1
      ensures log == old(log).(discarded := old(log).discarded + [old(queue)[0]])
    {
      hide Continue, Poll, Deliver, Enqueue, Counted, AfterCount, Announced;
      ghost var start := Contents();
      Begin(start);
      log := log.(discarded := log.discarded + [queue[0]]);
      queue := queue[1..];
      writer := Discarded;
      steps := Taken(start, [], WriterStep(TakeQueue, true));
      depth := depth - 1;
      writer := Discarding;
      steps := Taken(start, steps, WriterStep(TakeQueue, true));
    }

    ghost method LeaveQueue() returns (steps: seq<Event>)
      requires (writer.Discarding? || (writer.DrainSelecting? && !abortClosed)) && queue == []
      modifies this`writer
      ensures Contents() == Continue(old(Contents()), steps) && writer.Finishing?
    {
      hide Continue, Deliver, Enqueue, Counted, AfterCount, Announced;
      ghost var start := Contents();
      Begin(start);
      writer := Finishing;
      steps := Taken(start, [], WriterStep(TakeQueue, true));
    }

    ghost method GiveUp() returns (steps: seq<Event>)
      requires (writer.DrainTop? && phase.Stopped?) || (writer.DrainSelecting? && abortClosed)
      modifies this`writer
      ensures Contents() == Continue(old(Contents()), steps) && writer.Discarding?
    {
      hide Continue, Deliver, WindUp, Enqueue, Counted, AfterCount, Announced;
      ghost var start := Contents();
      Begin(start);
      writer := Discarding;
      steps := Taken(start, [], WriterStep(TakeAbort, true));
    }

    ghost method LookAgain() returns (steps: seq<Event>)
      requires writer.DrainTop? && !phase.Stopped?
      modifies this`writer
      ensures Contents() == Continue(old(Contents()), steps) && writer.DrainSelecting?
    {
      hide Continue, Deliver, WindUp, Enqueue, Counted, AfterCount, Announced;
      ghost var start := Contents();
      Begin(start);
      writer := DrainSelecting;
      steps := Taken(start, [], WriterStep(TakeQueue, true));
    }

    /** The final drain: everything queued is emitted in order, unless an abort came first. */
    method DrainQueue() returns (ghost steps: seq<Event>)
      requires writer.DrainTop? && holder.Free?
      modifies this
      ensures Contents() == Continue(old(Contents()), steps) && writer.Finishing?
      ensures Contents().life == old(Contents()).life
      ensures queue == [] && depth == old(depth) - |old(queue)|
      ensures !old(phase).Stopped? && !old(abortClosed) ==>
        Items(log.emitted) == Items(old(log).emitted) + old(queue) && log.discarded == old(log).discarded
      ensures old(phase).Stopped? ==>
        log.emitted == old(log).emitted && log.discarded == old(log).discarded + old(queue)
    {
      hide Continue, Poll, Deliver, WindUp, Items, Step;
      ghost var start, gone := Contents(), 0;
      Begin(start);
      steps := [];
      assert Items(start.log.emitted) + start.queue[..0] == Items(start.log.emitted);
      while true
        invariant Contents() == Continue(start, steps) && writer.DrainTop? && holder.Free?
        invariant Contents().life == start.life
        invariant gone <= |start.queue| && queue == start.queue[gone..] && depth == start.counters.depth - gone
        invariant Items(log.emitted) == Items(start.log.emitted) + start.queue[..gone]
        invariant log.discarded == start.log.discarded
        invariant phase.Stopped? ==> log.emitted == start.log.emitted && gone == 0
        decreases |queue|
      {
        ghost var more: seq<Event>;
        if phase.Stopped? {
          more := GiveUp();
          ContinueFurther(start, steps, more);
          steps := steps + more;
          more := DiscardQueued();
          ContinueFurther(start, steps, more);
          return steps + more;
        }
        more := LookAgain();
        ContinueFurther(start, steps, more);
        steps := steps + more;
        var takeAbort: bool := *;
        if abortClosed && (takeAbort || queue == []) {
          more := GiveUp();
          ContinueFurther(start, steps, more);
          steps := steps + more;
          more := DiscardQueued();
          ContinueFurther(start, steps, more);
          return steps + more;
        }
        if queue == [] {
          more := LeaveQueue();
          ContinueFurther(start, steps, more);
          return steps + more;
        }
        assert start.queue[..gone + 1] == start.queue[..gone] + [queue[0]];
        ghost var emitted := log.emitted;
        more := Serve();
        ContinueFurther(start, steps, more);
        ItemsGrow(emitted, log.emitted[|emitted|]);
        steps, gone := steps + more, gone + 1;
      }
    }

    /** A record is received, counted out and emitted. */
    method Serve() returns (ghost steps: seq<Event>)
      requires writer.DrainSelecting? && holder.Free? && queue != []
      modifies this
      ensures Contents() == Continue(old(Contents()), steps) && writer.DrainTop?
      ensures Contents().life == old(Contents()).life && holder.Free?
      ensures queue == old(queue)[1..] && depth == old(depth) - 1
      ensures log.discarded == old(log).discarded && log.accepted == old(log).accepted
      ensures exists e: Emission :: e.item == old(queue)[0] && log.emitted == old(log).emitted + [e]
    {
      hide Continue, WindUp, Enqueue, Counted, AfterCount, Announced, Deliver;
      ghost var start := Contents();
      Begin(start);
      var item := queue[0];
      queue := queue[1..];
      writer := Received(item, DrainingQueue);
      steps := Taken(start, [], WriterStep(TakeQueue, true));
      hide Step, Poll;
      ghost var more := RecordDequeue(item);
      ContinueFurther(start, steps, more);
      steps := steps + more;
      more := Emit(item, DrainingQueue);
      ContinueFurther(start, steps, more);
      steps := steps + more;
    }

    method RecordDequeue(item: Item) returns (ghost steps: seq<Event>)
      requires writer == Received(item, DrainingQueue) && holder.Free?
      modifies this`depth, this`writer
      ensures Contents() == Continue(old(Contents()), steps) && writer == Loading(item, DrainingQueue)
      ensures depth == old(depth) - 1
    {
      hide Continue, Poll, WindUp, Enqueue, Counted, AfterCount, Announced;
      ghost var start := Contents();
      Begin(start);
      depth := depth - 1;
      writer := Writer.Taken(item, DrainingQueue);
      steps := Taken(start, [], WriterStep(TakeQueue, true));
      writer := Loading(item, DrainingQueue);
      steps := Taken(start, steps, WriterStep(TakeQueue, true));
    }

    method Finish() returns (ghost steps: seq<Event>)
      requires writer.Finishing?
      modifies this`phase, this`doneClosed, this`writer
      ensures Contents() == Continue(old(Contents()), steps) && writer.Exited? && phase.Stopped? && doneClosed
    {
      hide Continue, Poll, Deliver, Enqueue, Counted, AfterCount, Announced;
      ghost var start := Contents();
      Begin(start);
      phase := Stopped;
      writer := ClosingDone;
      steps := Taken(start, [], WriterStep(TakeQueue, true));
      doneClosed := true;
      writer := Exited;
      steps := Taken(start, steps, WriterStep(TakeQueue, true));
    }
  }

  lemma Begin(s: State)
    ensures Continue(s, []) == s
  {
  }
}
