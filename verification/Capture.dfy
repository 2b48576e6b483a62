/**
 The capture itself: a trace writer over a file that can fail at any write, the
 monitor's event loop, and the orderly or failed end of a capture. The clock, the
 peer, the line sizes and the storage are left open wherever the source leaves
 them to the outside.
 */
module Capture {
  import opened Results
  import opened Evidence
  import opened Monitor
  import Sets
  import Verifier

  function ElapsedSince(start: int, at: int): int { if at < start then 0 else at - start }

  lemma SizeGrows(lines: seq<Line>, line: Line)
    ensures Size(lines + [line]) == Size(lines) + line.size + 1
  {
    assert (lines + [line])[..|lines|] == lines;
  }

  class TraceWriter {
    const start: int
    const maxBytes: int
    var bytes: int
    var seqNo: nat
    var closed: bool
    var file: seq<Line>

    constructor (start: int, maxBytes: int)
      ensures this.start == start && this.maxBytes == maxBytes
      ensures bytes == 0 && seqNo == 0 && !closed && file == [] && (0 <= maxBytes ==> Accounted())
    {
      this.start, this.maxBytes := start, maxBytes;
      bytes, seqNo, closed, file := 0, 0, false, [];
    }

    /** Every byte and every record in the file was counted. */
    predicate Accounted()
      reads this
    {
      seqNo == |file| && bytes == Size(file) && bytes <= maxBytes
    }

    /** A write appends one whole line, or fails and may leave a torn one behind. */
    method Write(at: int, record: Record) returns (written: Result<Record, Failure>)
      modifies this`file, this`bytes, this`seqNo
      ensures old(closed) ==> written.Err? && file == old(file)
      ensures written.Ok? ==>
        && written.value == Stamped(record, old(seqNo) + 1, ElapsedSince(start, at))
        && |file| == |old(file)| + 1 && file[..|old(file)|] == old(file)
        && file[|old(file)|].Decoded? && 0 < file[|old(file)|].size <= MAX_LINE_BYTES
        && file[|old(file)|].record == written.value && file[|old(file)|].fields == Present(written.value)
        && seqNo == old(seqNo) + 1
      ensures written.Err? ==>
        && written.error != SyncFailed
        && seqNo == old(seqNo) && bytes == old(bytes)
        && (file == old(file) || (|file| == |old(file)| + 1 && file[..|old(file)|] == old(file)
                                  && file[|old(file)|].Malformed?))
      ensures written.Ok? && old(Accounted()) ==> Accounted()
    {
      hide Size, Present, Stamped;
      if closed { return Err(TraceClosed); }
      var stamped := Stamped(record, seqNo + 1, ElapsedSince(start, at));
      var size: nat :| 0 < size <= MAX_LINE_BYTES;
      if maxBytes - bytes < size + 1 { return Err(TraceLimit); }
      if * {
        if * { file := file + [Malformed(size - 1)]; }
        return Err(WriteFailed);
      }
      SizeGrows(file, Decoded(size, stamped, Present(stamped)));
      file := file + [Decoded(size, stamped, Present(stamped))];
      seqNo := seqNo + 1;
      bytes := bytes + size + 1;
      written := Ok(stamped);
    }

    method WriteIntegrityFailure(at: int)
      modifies this`file, this`bytes, this`seqNo
      ensures |old(file)| <= |file| <= |old(file)| + 1 && file[..|old(file)|] == old(file)
      ensures |file| == |old(file)| + 1 ==>
        file[|old(file)|].Malformed? || file[|old(file)|].record.kind.IntegrityFailure?
      ensures closed == old(closed)
    {
      var _ := Write(at, BLANK.(kind := IntegrityFailure, reason := OtherReason));
    }

    /** Closing writes the final record with the counts so far; flushing may still fail. */
    method Close(at: int, reason: Reason) returns (err: Option<Failure>)
      modifies this
      ensures closed
      ensures old(closed) ==> err.None? && file == old(file) && seqNo == old(seqNo) && bytes == old(bytes)
      ensures |old(file)| <= |file| <= |old(file)| + 1 && file[..|old(file)|] == old(file)
      ensures !old(closed) && |file| == |old(file)| ==> err.Some? && err.value != SyncFailed
      ensures |file| == |old(file)| + 1 && file[|old(file)|].Malformed? ==> err.Some? && err.value != SyncFailed
      ensures |file| == |old(file)| + 1 && file[|old(file)|].Decoded? ==>
        && (err.Some? ==> err.value == SyncFailed)
        && var last := file[|old(file)|];
           && last.record == Stamped(StoppedRecord(reason, old(seqNo), old(bytes)), old(seqNo) + 1, ElapsedSince(start, at))
           && 0 < last.size <= MAX_LINE_BYTES && last.fields == Present(last.record)
      ensures |file| == |old(file)| + 1 && file[|old(file)|].Decoded? && old(Accounted()) ==> Accounted()
    {
      if closed { return None; }
      var written := Write(at, StoppedRecord(reason, seqNo, bytes));
      closed := true;
      err := if written.Err? then Some(written.error) else None;
      if written.Ok? {
        if * { err := Some(SyncFailed); }
      }
    }
  }

  datatype Pending = Pending(trigger: Trigger, related: nat, sentAt: int, sentNS: int)

  /** An event on an input; paths arrive as their last element. */
  datatype Event =
    | SettingsEvent(input: string, base: string)
    | ActionEvent(input: string, action: Action)
    | EndedEvent(input: string)

  datatype Response = Response(id: nat, matchesType: bool, result: bool, code: int, base: Option<string>)

  /** A frame from the peer. */
  datatype Frame = Undecodable | Unrelated | EventFrame(event: Event) | ResponseFrame(response: Response)

  const REQUEST_TIMEOUT: int := 5 * SECOND

  function SafeMediaAction(action: Action): Action {
    if action.Restart? || action.StopAction? then action else OtherAction
  }

  // ---- What the loop relies on ----

  predicate PendingOk(p: Pending, start: int, seqNo: nat) {
    ValidRequest(p.trigger, p.related, seqNo + 1) && p.sentNS == p.sentAt - start && 0 <= p.sentNS
  }

  /** Times in the file stay at or below the last frame time. */
  predicate UpTo(lines: seq<Line>, elapsed: int) {
    forall i | 0 <= i < |lines| :: lines[i].Decoded? ==> lines[i].record.elapsed <= elapsed
  }

  /** The identity of a snapshot request; the initial one has no event of its own. */
  predicate Taken(lines: seq<Line>, trigger: Trigger, related: nat) {
    exists i :: 0 <= i < |lines| && lines[i].Decoded? && lines[i].record.kind.Snapshot?
                && lines[i].record.trigger == trigger && lines[i].record.related == related
  }

  predicate Asked(pending: map<nat, Pending>, trigger: Trigger, related: nat) {
    exists id :: id in pending && pending[id].trigger == trigger && pending[id].related == related
  }

  /** Every request is answered at most once, and no two requests are for the same reason and event. */
  predicate Once(lines: seq<Line>, pending: map<nat, Pending>, settling: set<nat>) {
    && (forall k, l | 0 <= k < l < |lines| && lines[k].Decoded? && lines[l].Decoded?
            && lines[k].record.kind.Snapshot? && lines[l].record.kind.Snapshot? ::
          lines[k].record.trigger != lines[l].record.trigger || lines[k].record.related != lines[l].record.related)
    && (forall id | id in pending :: !Taken(lines, pending[id].trigger, pending[id].related))
    && (forall id, other | id in pending && other in pending && id != other ::
          pending[id].trigger != pending[other].trigger || pending[id].related != pending[other].related)
    && (forall n | n in settling :: !Taken(lines, EndedSettle, n) && !Asked(pending, EndedSettle, n))
  }

  /** Snapshots and requests refer to events already written. */
  predicate RefersBack(lines: seq<Line>, pending: map<nat, Pending>, settling: set<nat>) {
    && (forall i | 0 <= i < |lines| && lines[i].Decoded? && lines[i].record.kind.Snapshot? ::
          lines[i].record.related <= |lines|)
    && (forall id | id in pending :: pending[id].related <= |lines|)
    && (forall n | n in settling :: 0 < n <= |lines|)
  }

  // ---- Appending one line ----

  predicate Appends(lines: seq<Line>, more: seq<Line>, r: Record) {
    && |more| == |lines| + 1 && more[..|lines|] == lines
    && more[|lines|].Decoded? && 0 < more[|lines|].size <= MAX_LINE_BYTES
    && more[|lines|].record == r && more[|lines|].fields == Present(r)
  }

  lemma RestartSeenGrows(lines: seq<Line>, more: seq<Line>, r: Record)
    requires Appends(lines, more, r)
    ensures RestartSeen(more) <==> RestartSeen(lines) || IsRestart(r)
  {
    assert more == lines + [more[|lines|]];
    Verifier.RestartSeenStep(more, |lines|);
    assert more[..|lines| + 1] == more;
  }

  /** A captured record appended in time order keeps the trace a capture in progress. */
  lemma AppendKeepsTrace(lines: seq<Line>, more: seq<Line>, r: Record, cfg: Config)
    requires CapturedTrace(lines, cfg) && Appends(lines, more, r)
    requires r.seqNo == |lines| + 1 && Captured(r, cfg)
    requires UpTo(lines, r.elapsed)
    requires r.kind.PlaybackEnded? && RestartSeen(lines) ==> r.lastRestart != 0
    ensures CapturedTrace(more, cfg)
    ensures UpTo(more, r.elapsed)
  {
    hide Present, Captured, HeaderRecord;
    var n := |lines|;
    assert CapturedLine(lines, n - 1, cfg) && more[n - 1] == lines[n - 1];
    forall i | 0 <= i < |more| ensures CapturedLine(more, i, cfg) {
      if i < n {
        assert CapturedLine(lines, i, cfg);
        assert more[i] == lines[i] && more[..i] == lines[..i];
        if 0 < i { assert more[i - 1] == lines[i - 1]; }
      } else {
        assert 0 <= r.elapsed;
      }
    }
  }

  predicate NoStop(lines: seq<Line>) {
    forall i | 0 <= i < |lines| :: lines[i].Decoded? ==> !lines[i].record.kind.Stopped?
  }

  lemma CaptureHasNoStop(lines: seq<Line>, cfg: Config)
    requires CapturedTrace(lines, cfg)
    ensures NoStop(lines)
  {
    forall i | 0 <= i < |lines| && lines[i].Decoded? ensures !lines[i].record.kind.Stopped? {
      CapturedShape(lines, cfg, i);
    }
  }

  lemma NoStopGrows(lines: seq<Line>, more: seq<Line>)
    requires NoStop(lines) && |lines| <= |more| <= |lines| + 1 && more[..|lines|] == lines
    requires |more| == |lines| + 1 && more[|lines|].Decoded? ==> !more[|lines|].record.kind.Stopped?
    ensures NoStop(more)
  {
    forall i | 0 <= i < |more| && more[i].Decoded? ensures !more[i].record.kind.Stopped? {
      if i < |lines| { assert more[i] == lines[i]; }
    }
  }

  /** A line that is no snapshot leaves the request bookkeeping alone. */
  lemma OnceAfterEvent(lines: seq<Line>, more: seq<Line>, r: Record, pending: map<nat, Pending>, settling: set<nat>)
    requires Appends(lines, more, r) && !r.kind.Snapshot?
    requires Once(lines, pending, settling) && RefersBack(lines, pending, settling)
    ensures Once(more, pending, settling) && RefersBack(more, pending, settling)
    ensures forall trigger :: !Taken(more, trigger, |more|) && !Asked(pending, trigger, |more|) && |more| !in settling
  {
    hide Present;
    assert forall i | 0 <= i < |lines| :: more[i] == lines[i];
    forall trigger, related | Taken(more, trigger, related) ensures Taken(lines, trigger, related) {
      var i :| 0 <= i < |more| && more[i].Decoded? && more[i].record.kind.Snapshot?
               && more[i].record.trigger == trigger && more[i].record.related == related;
      assert lines[i] == more[i];
    }
  }

  /** A request for a reason and event not used before. */
  lemma OnceAfterRequest(lines: seq<Line>, pending: map<nat, Pending>, settling: set<nat>, id: nat, p: Pending)
    requires Once(lines, pending, settling) && RefersBack(lines, pending, settling)
    requires id !in pending && !Taken(lines, p.trigger, p.related) && !Asked(pending, p.trigger, p.related)
    requires p.trigger.EndedSettle? ==> p.related !in settling
    requires p.related <= |lines|
    ensures Once(lines, pending[id := p], settling) && RefersBack(lines, pending[id := p], settling)
  {
    var more := pending[id := p];
    forall n | n in settling ensures !Asked(more, EndedSettle, n) {
      assert !Asked(pending, EndedSettle, n);
    }
    forall one | one in pending
      ensures pending[one].trigger != p.trigger || pending[one].related != p.related
    {
    }
  }

  /** Answering a request moves its identity from the asked to the taken ones. */
  lemma OnceAfterResponse(lines: seq<Line>, more: seq<Line>, r: Record, pending: map<nat, Pending>,
                          settling: set<nat>, id: nat)
    requires id in pending
    requires Appends(lines, more, r) && r.kind.Snapshot?
    requires r.trigger == pending[id].trigger && r.related == pending[id].related
    requires Once(lines, pending, settling) && RefersBack(lines, pending, settling)
    ensures Once(more, pending - {id}, settling) && RefersBack(more, pending - {id}, settling)
  {
    hide Present;
    var rest := pending - {id};
    var n := |lines|;
    assert forall i | 0 <= i < n :: more[i] == lines[i];
    forall trigger, related | Taken(more, trigger, related)
      ensures Taken(lines, trigger, related) || (trigger == r.trigger && related == r.related)
    {
      var i :| 0 <= i < |more| && more[i].Decoded? && more[i].record.kind.Snapshot?
               && more[i].record.trigger == trigger && more[i].record.related == related;
      if i < n { assert lines[i] == more[i]; }
    }
    forall k | 0 <= k < n && lines[k].Decoded? && lines[k].record.kind.Snapshot?
      ensures lines[k].record.trigger != r.trigger || lines[k].record.related != r.related
    {
      assert !Taken(lines, pending[id].trigger, pending[id].related);
    }
    forall m | m in settling ensures !Taken(more, EndedSettle, m) && !Asked(rest, EndedSettle, m) {
      assert !Asked(pending, EndedSettle, m);
    }
  }

  lemma OnceWithFewerTimers(lines: seq<Line>, pending: map<nat, Pending>, settling: set<nat>, fewer: set<nat>)
    requires fewer <= settling && Once(lines, pending, settling) && RefersBack(lines, pending, settling)
    ensures Once(lines, pending, fewer) && RefersBack(lines, pending, fewer)
  {
  }

  /** What holds of the file and the bookkeeping together; `elapsed` is the time of the newest frame. */
  predicate Kept(lines: seq<Line>, cfg: Config, start: int, elapsed: int,
                 pending: map<nat, Pending>, nextID: nat, settling: set<nat>) {
    && CapturedTrace(lines, cfg) && UpTo(lines, elapsed)
    && (forall id | id in pending :: id <= nextID && PendingOk(pending[id], start, |lines|))
    && Once(lines, pending, settling) && RefersBack(lines, pending, settling)
  }

  /** Nothing was asked or promised yet about the newest line. */
  predicate Unused(lines: seq<Line>, pending: map<nat, Pending>, settling: set<nat>) {
    && (forall trigger :: !Taken(lines, trigger, |lines|) && !Asked(pending, trigger, |lines|))
    && |lines| !in settling
  }

  lemma KeptAtStart(lines: seq<Line>, cfg: Config, start: int, elapsed: int)
    requires |lines| == 1 && CapturedTrace(lines, cfg)
    requires lines[0].Decoded? && lines[0].record.elapsed == elapsed
    ensures Kept(lines, cfg, start, elapsed, map[], 0, {}) && !RestartSeen(lines)
    ensures !Taken(lines, Initial, 0)
  {
    hide Present, Captured;
    assert CapturedLine(lines, 0, cfg);
  }

  lemma KeptAfterEvent(lines: seq<Line>, more: seq<Line>, r: Record, cfg: Config, start: int, elapsed: int,
                       pending: map<nat, Pending>, nextID: nat, settling: set<nat>)
    requires Kept(lines, cfg, start, elapsed, pending, nextID, settling)
    requires Appends(lines, more, r) && !r.kind.Snapshot? && Captured(r, cfg)
    requires r.seqNo == |lines| + 1 && elapsed <= r.elapsed
    requires r.kind.PlaybackEnded? && RestartSeen(lines) ==> r.lastRestart != 0
    ensures Kept(more, cfg, start, r.elapsed, pending, nextID, settling) && Unused(more, pending, settling)
  {
    AppendKeepsTrace(lines, more, r, cfg);
    OnceAfterEvent(lines, more, r, pending, settling);
  }

  lemma RequestIsOk(trigger: Trigger, related: nat, now: int, start: int, seqNo: nat)
    requires ValidRequest(trigger, related, seqNo + 1) && start <= now
    ensures PendingOk(Pending(trigger, related, now, ElapsedSince(start, now)), start, seqNo)
  {
  }

  lemma KeptAfterRequest(lines: seq<Line>, cfg: Config, start: int, elapsed: int,
                         pending: map<nat, Pending>, nextID: nat, settling: set<nat>, p: Pending)
    requires Kept(lines, cfg, start, elapsed, pending, nextID, settling) && PendingOk(p, start, |lines|)
    requires !Taken(lines, p.trigger, p.related) && !Asked(pending, p.trigger, p.related)
    requires p.trigger.EndedSettle? ==> p.related !in settling
    ensures nextID + 1 !in pending
    ensures Kept(lines, cfg, start, elapsed, pending[nextID + 1 := p], nextID + 1, settling)
  {
    hide CapturedTrace;
    OnceAfterRequest(lines, pending, settling, nextID + 1, p);
  }

  lemma KeptAfterResponse(lines: seq<Line>, more: seq<Line>, r: Record, cfg: Config, start: int, elapsed: int,
                          pending: map<nat, Pending>, nextID: nat, settling: set<nat>, id: nat)
    requires Kept(lines, cfg, start, elapsed, pending, nextID, settling) && id in pending
    requires Appends(lines, more, r) && r.kind.Snapshot? && Captured(r, cfg)
    requires r.trigger == pending[id].trigger && r.related == pending[id].related
    requires r.seqNo == |lines| + 1 && elapsed <= r.elapsed
    ensures Kept(more, cfg, start, r.elapsed, pending - {id}, nextID, settling)
  {
    AppendKeepsTrace(lines, more, r, cfg);
    hide CapturedTrace;
    OnceAfterResponse(lines, more, r, pending, settling, id);
  }

  lemma KeptAfterTimer(lines: seq<Line>, cfg: Config, start: int, elapsed: int,
                       pending: map<nat, Pending>, nextID: nat, settling: set<nat>, n: nat)
    requires Kept(lines, cfg, start, elapsed, pending, nextID, settling) && n in settling
    ensures Kept(lines, cfg, start, elapsed, pending, nextID, settling - {n})
    ensures !Taken(lines, EndedSettle, n) && !Asked(pending, EndedSettle, n)
    ensures ValidRequest(EndedSettle, n, |lines| + 1)
  {
    hide CapturedTrace;
    OnceWithFewerTimers(lines, pending, settling, settling - {n});
  }

  lemma KeptWithTimer(lines: seq<Line>, cfg: Config, start: int, elapsed: int,
                      pending: map<nat, Pending>, nextID: nat, settling: set<nat>)
    requires Kept(lines, cfg, start, elapsed, pending, nextID, settling)
    requires lines != [] && |lines| !in settling
    requires !Taken(lines, EndedSettle, |lines|) && !Asked(pending, EndedSettle, |lines|)
    ensures Kept(lines, cfg, start, elapsed, pending, nextID, settling + {|lines|})
  {
    hide CapturedTrace;
  }

  lemma KeptMeansNoStop(lines: seq<Line>, cfg: Config, start: int, elapsed: int,
                        pending: map<nat, Pending>, nextID: nat, settling: set<nat>)
    requires Kept(lines, cfg, start, elapsed, pending, nextID, settling)
    ensures NoStop(lines) && lines != []
  {
    CaptureHasNoStop(lines, cfg);
  }

  lemma KeptRequestOk(lines: seq<Line>, cfg: Config, start: int, elapsed: int,
                      pending: map<nat, Pending>, nextID: nat, settling: set<nat>, id: nat)
    requires Kept(lines, cfg, start, elapsed, pending, nextID, settling) && id in pending
    ensures PendingOk(pending[id], start, |lines|)
  {
  }

  lemma KeptWithLargerID(lines: seq<Line>, cfg: Config, start: int, elapsed: int,
                         pending: map<nat, Pending>, nextID: nat, settling: set<nat>)
    requires Kept(lines, cfg, start, elapsed, pending, nextID, settling)
    ensures Kept(lines, cfg, start, elapsed, pending, nextID + 1, settling)
  {
  }

  lemma AskedForAnotherReason(pending: map<nat, Pending>, id: nat, p: Pending, trigger: Trigger, related: nat)
    requires !Asked(pending, trigger, related) && p.trigger != trigger
    ensures !Asked(pending[id := p], trigger, related)
  {
  }

  lemma CapturedIsNoStop(r: Record, cfg: Config)
    requires Captured(r, cfg)
    ensures !r.kind.Stopped?
  {
  }

  lemma EventCaptured(cfg: Config, record: Record, seqNo: nat, elapsed: int)
    requires Watched(cfg, record.basename)
    requires || record == SettingsRecord(cfg, record.basename)
             || record == ActionRecord(cfg, SafeMediaAction(record.action), record.basename)
             || (record == EndedRecord(cfg, record.basename, record.lastRestart, record.since)
                 && record.lastRestart < seqNo
                 && (if record.lastRestart == 0 then record.since.None? else record.since.Some? && 0 <= record.since.value))
    ensures Captured(Stamped(record, seqNo, elapsed), cfg)
  {
  }

  lemma SnapshotCaptured(cfg: Config, p: Pending, start: int, at: int, code: int, basename: string, n: nat)
    requires PendingOk(p, start, n) && Watched(cfg, basename)
    ensures var elapsed := at - start;
            Captured(Stamped(SnapshotRecord(cfg, p.trigger, p.related, p.sentNS, elapsed, true, code, basename),
                             n + 1, elapsed), cfg)
  {
  }

  // ---- What OBS said ----

  /** What the peer reported about the watched input, and when. */
  datatype Heard =
    | Told(base: string, at: int)
    | Acted(action: Action, at: int)
    | Finished(at: int)
    | Answered(base: string, at: int)

  /** The file the peer named last. */
  function LastBase(heard: seq<Heard>): Option<string> {
    if heard == [] then None
    else
      var h := heard[|heard| - 1];
      if h.Told? || h.Answered? then Some(h.base) else LastBase(heard[..|heard| - 1])
  }

  /** How many reports there were up to and including the last restart; zero without one. */
  function LastRestart(heard: seq<Heard>): (n: nat)
    ensures n <= |heard| && (0 < n ==> heard[n - 1].Acted? && heard[n - 1].action.Restart?)
  {
    if heard == [] then 0
    else
      var h := heard[|heard| - 1];
      if h.Acted? && h.action.Restart? then |heard| else LastRestart(heard[..|heard| - 1])
  }

  /** The two watched files are recorded by name, any other file, or none so far, as "other". */
  predicate Names(cfg: Config, base: Option<string>, name: string) {
    if base == Some(cfg.a) then name == cfg.a
    else if base == Some(cfg.b) then name == cfg.b
    else name == "other"
  }

  /** The record says what the peer reported, given everything it reported before. */
  predicate Tells(cfg: Config, start: int, before: seq<Heard>, h: Heard, r: Record) {
    && r.elapsed == h.at - start && r.seqNo == |before| + 2
    && match h
       case Told(base, _) => r.kind.SettingsChanged? && Names(cfg, Some(base), r.basename)
       case Answered(base, _) => r.kind.Snapshot? && Names(cfg, Some(base), r.basename)
       case Acted(action, _) =>
         && r.kind.MediaAction? && Names(cfg, LastBase(before), r.basename)
         && r.action == (if action.Restart? || action.StopAction? then action else OtherAction)
       case Finished(at) =>
         && r.kind.PlaybackEnded? && Names(cfg, LastBase(before), r.basename)
         && var n := LastRestart(before);
            if n == 0 then r.lastRestart == 0 && r.since == None
            else r.lastRestart == n + 1 && r.since == Some(at - before[n - 1].at)
  }

  /** After its header the file is a record of what was heard, report by report. */
  predicate Faithful(lines: seq<Line>, cfg: Config, start: int, heard: seq<Heard>) {
    |lines| == |heard| + 1 && forall i | 0 <= i < |heard| :: LineTells(lines, cfg, start, heard, i)
  }

  predicate LineTells(lines: seq<Line>, cfg: Config, start: int, heard: seq<Heard>, i: nat)
    requires i < |heard| && i + 1 < |lines|
  {
    lines[i + 1].Decoded? && Tells(cfg, start, heard[..i], heard[i], lines[i + 1].record)
  }

  lemma FaithfulGrows(lines: seq<Line>, more: seq<Line>, r: Record, cfg: Config, start: int, heard: seq<Heard>, h: Heard)
    requires Faithful(lines, cfg, start, heard) && Appends(lines, more, r) && Tells(cfg, start, heard, h, r)
    ensures Faithful(more, cfg, start, heard + [h])
  {
    hide Tells, Present;
    var longer := heard + [h];
    forall i | 0 <= i < |longer| ensures LineTells(more, cfg, start, longer, i) {
      if i < |heard| {
        assert longer[..i] == heard[..i] && more[i + 1] == more[..|lines|][i + 1] == lines[i + 1];
        assert LineTells(lines, cfg, start, heard, i);
      } else {
        assert longer[..i] == heard;
      }
    }
  }

  lemma HearOne(heard: seq<Heard>, h: Heard)
    ensures LastBase(heard + [h]) == if h.Told? || h.Answered? then Some(h.base) else LastBase(heard)
    ensures LastRestart(heard + [h]) == if h.Acted? && h.action.Restart? then |heard| + 1 else LastRestart(heard)
  {
    assert (heard + [h])[..|heard|] == heard;
  }

  /** The file tells what was heard, and the monitor knows the newest file and the newest restart. */
  predicate Knows(lines: seq<Line>, cfg: Config, start: int, heard: seq<Heard>, current: string,
                  restartSeq: nat, restartAt: int) {
    && Faithful(lines, cfg, start, heard) && Names(cfg, LastBase(heard), current)
    && var n := LastRestart(heard);
       if n == 0 then restartSeq == 0 else restartSeq == n + 1 && restartAt == heard[n - 1].at
  }

  lemma KnowsSettings(lines: seq<Line>, more: seq<Line>, cfg: Config, start: int, heard: seq<Heard>, current: string,
                      restartSeq: nat, restartAt: int, base: string, at: int)
    requires Knows(lines, cfg, start, heard, current, restartSeq, restartAt)
    requires Appends(lines, more, Stamped(SettingsRecord(cfg, MapBase(cfg, base)), |lines| + 1, at - start))
    ensures Knows(more, cfg, start, heard + [Told(base, at)], MapBase(cfg, base), restartSeq, restartAt)
  {
    var r := Stamped(SettingsRecord(cfg, MapBase(cfg, base)), |lines| + 1, at - start);
    HearOne(heard, Told(base, at));
    assert Tells(cfg, start, heard, Told(base, at), r);
    hide Tells, Names, Appends;
    FaithfulGrows(lines, more, r, cfg, start, heard, Told(base, at));
  }

  lemma KnowsAction(lines: seq<Line>, more: seq<Line>, cfg: Config, start: int, heard: seq<Heard>, current: string,
                    restartSeq: nat, restartAt: int, raw: Action, at: int)
    requires Knows(lines, cfg, start, heard, current, restartSeq, restartAt)
    requires Appends(lines, more, Stamped(ActionRecord(cfg, SafeMediaAction(raw), current), |lines| + 1, at - start))
    ensures Knows(more, cfg, start, heard + [Acted(raw, at)], current,
                  if raw.Restart? then |lines| + 1 else restartSeq, if raw.Restart? then at else restartAt)
  {
    var r := Stamped(ActionRecord(cfg, SafeMediaAction(raw), current), |lines| + 1, at - start);
    HearOne(heard, Acted(raw, at));
    assert Tells(cfg, start, heard, Acted(raw, at), r);
    hide Tells, Names, Appends;
    FaithfulGrows(lines, more, r, cfg, start, heard, Acted(raw, at));
  }

  lemma KnowsEnd(lines: seq<Line>, more: seq<Line>, cfg: Config, start: int, heard: seq<Heard>, current: string,
                 restartSeq: nat, restartAt: int, at: int)
    requires Knows(lines, cfg, start, heard, current, restartSeq, restartAt)
    requires var since := if restartSeq == 0 then None else Some(at - restartAt);
      Appends(lines, more, Stamped(EndedRecord(cfg, current, restartSeq, since), |lines| + 1, at - start))
    ensures Knows(more, cfg, start, heard + [Finished(at)], current, restartSeq, restartAt)
  {
    var since := if restartSeq == 0 then None else Some(at - restartAt);
    var r := Stamped(EndedRecord(cfg, current, restartSeq, since), |lines| + 1, at - start);
    HearOne(heard, Finished(at));
    assert Tells(cfg, start, heard, Finished(at), r);
    hide Tells, Names, Appends;
    FaithfulGrows(lines, more, r, cfg, start, heard, Finished(at));
  }

  lemma KnowsAnswer(lines: seq<Line>, more: seq<Line>, cfg: Config, start: int, heard: seq<Heard>, current: string,
                    restartSeq: nat, restartAt: int, p: Pending, code: int, base: string, at: int)
    requires Knows(lines, cfg, start, heard, current, restartSeq, restartAt)
    requires Appends(lines, more,
      Stamped(SnapshotRecord(cfg, p.trigger, p.related, p.sentNS, at - start, true, code, MapBase(cfg, base)),
              |lines| + 1, at - start))
    ensures Knows(more, cfg, start, heard + [Answered(base, at)], MapBase(cfg, base), restartSeq, restartAt)
  {
    var r := Stamped(SnapshotRecord(cfg, p.trigger, p.related, p.sentNS, at - start, true, code, MapBase(cfg, base)),
                     |lines| + 1, at - start);
    HearOne(heard, Answered(base, at));
    assert Tells(cfg, start, heard, Answered(base, at), r);
    hide Tells, Names, Appends;
    FaithfulGrows(lines, more, r, cfg, start, heard, Answered(base, at));
  }

  class Runtime {
    const cfg: Config
    const trace: TraceWriter
    var pending: map<nat, Pending>
    var nextID: nat
    var current: string
    var restartSeq: nat
    var restartAt: int
    var pendingSettles: nat
    /** Settle timers in flight, by the end event they belong to. */
    var settling: set<nat>
    /** The time of the newest frame: the reader stamps frames with a clock that never goes back. */
    var lastAt: int
    /** Everything the peer reported about the watched input so far. */
    ghost var heard: seq<Heard>

    /** Starts on a trace that holds nothing but its header. */
    constructor (cfg: Config, trace: TraceWriter, headerAt: int)
      requires ConfigOk(cfg) && !trace.closed && trace.Accounted() && trace.maxBytes == cfg.maxBytes
      requires |trace.file| == 1 && CapturedTrace(trace.file, cfg)
      requires trace.file[0].Decoded? && trace.file[0].record.elapsed == headerAt - trace.start
      requires trace.start <= headerAt
      ensures Valid() && this.trace == trace && this.cfg == cfg && pending == map[] && lastAt == headerAt
      ensures !Taken(trace.file, Initial, 0)
      ensures Truthful() && heard == []
    {
      hide Kept, RestartSeen, ConfigOk, CapturedTrace, Size, Taken;
      this.cfg, this.trace := cfg, trace;
      pending, nextID, current := map[], 0, OTHER;
      restartSeq, restartAt, pendingSettles, settling, lastAt, heard := 0, 0, 0, {}, headerAt, [];
      KeptAtStart(trace.file, cfg, trace.start, headerAt - trace.start);
    }

    /** Once a restart is in the trace, the monitor knows the newest one. */
    ghost predicate Valid()
      reads this, trace
    {
      Core() && (RestartSeen(trace.file) ==> restartSeq != 0)
    }

    ghost predicate Core()
      reads this, trace
    {
      && !trace.closed && trace.Accounted() && trace.maxBytes == cfg.maxBytes
      && ConfigOk(cfg) && trace.start <= lastAt && Watched(cfg, current)
      && Kept(trace.file, cfg, trace.start, lastAt - trace.start, pending, nextID, settling)
      && restartSeq <= trace.seqNo && (restartSeq != 0 ==> restartAt <= lastAt)
      && |settling| == pendingSettles
    }

    ghost predicate Truthful()
      reads this`current, this`restartSeq, this`restartAt, this`heard, trace`file
    {
      Knows(trace.file, cfg, trace.start, heard, current, restartSeq, restartAt)
    }

    /** All that is left to rely on once something failed. */
    ghost predicate Sound()
      reads this, trace
    {
      !trace.closed && NoStop(trace.file)
    }

    method SendSnapshot(now: int, trigger: Trigger, related: nat) returns (err: Option<Failure>)
      requires Valid() && lastAt <= now
      requires ValidRequest(trigger, related, trace.seqNo + 1)
      requires !Taken(trace.file, trigger, related) && !Asked(pending, trigger, related)
      requires trigger.EndedSettle? ==> related !in settling
      modifies this`pending, this`nextID
      ensures Valid() && Sound()
      ensures err.None? ==>
        nextID == old(nextID) + 1 && pending == old(pending)[nextID := Pending(trigger, related, now, now - trace.start)]
      ensures err.Some? ==> pending == old(pending) && (err.value.PendingLimit? || err.value.ConnectionClosed?)
      ensures err == Some(PendingLimit) <==> MAX_PENDING <= old(|pending|)
    {
      hide Kept, RestartSeen, ConfigOk, Size, Taken, Asked, NoStop, PendingOk, Watched, ValidRequest;
      KeptMeansNoStop(trace.file, cfg, trace.start, lastAt - trace.start, pending, nextID, settling);
      if MAX_PENDING <= |pending| { return Some(PendingLimit); }
      var request := Pending(trigger, related, now, ElapsedSince(trace.start, now));
      RequestIsOk(trigger, related, now, trace.start, trace.seqNo);
      KeptAfterRequest(trace.file, cfg, trace.start, lastAt - trace.start, pending, nextID, settling, request);
      nextID := nextID + 1;
      pending := pending[nextID := request];
      err := None;
      if * {
        pending := pending - {nextID};
        assert pending == old(pending);
        KeptWithLargerID(trace.file, cfg, trace.start, lastAt - trace.start, pending, old(nextID), settling);
        err := Some(ConnectionClosed);
      }
    }

    /** Writes one captured event record and keeps the bookkeeping. */
    method WriteEvent(at: int, record: Record) returns (written: Result<Record, Failure>)
      requires Valid() && lastAt <= at && !record.kind.Snapshot?
      requires Captured(Stamped(record, trace.seqNo + 1, at - trace.start), cfg)
      requires record.kind.PlaybackEnded? && restartSeq != 0 ==> record.lastRestart != 0
      modifies this`lastAt, trace
      ensures Sound() && written != Err(SyncFailed)
      ensures written.Ok? ==>
        && Core() && lastAt == at
        && (RestartSeen(trace.file) <==> RestartSeen(old(trace.file)) || IsRestart(record))
        && Appends(old(trace.file), trace.file, Stamped(record, old(trace.seqNo) + 1, at - trace.start))
        && written.value.seqNo == trace.seqNo == old(trace.seqNo) + 1
        && Unused(trace.file, pending, settling)
    {
      hide Kept, RestartSeen, ConfigOk, Size, Unused, NoStop, Captured, Present;
      KeptMeansNoStop(trace.file, cfg, trace.start, lastAt - trace.start, pending, nextID, settling);
      CapturedIsNoStop(Stamped(record, trace.seqNo + 1, at - trace.start), cfg);
      written := trace.Write(at, record);
      NoStopGrows(old(trace.file), trace.file);
      if written.Err? { return; }
      ghost var r := Stamped(record, old(trace.seqNo) + 1, at - trace.start);
      KeptAfterEvent(old(trace.file), trace.file, r, cfg, trace.start, lastAt - trace.start, pending, nextID, settling);
      RestartSeenGrows(old(trace.file), trace.file, r);
      lastAt := at;
    }

    /** The watched input's settings changed: record the new file and take a snapshot. */
    method HandleSettings(at: int, now: int, base: string) returns (err: Option<Failure>)
      requires Valid() && Truthful() && lastAt <= at <= now
      modifies this, trace
      ensures Sound() && err != Some(SyncFailed)
      ensures err.None? ==> Truthful() && heard == old(heard) + [Told(base, at)]
      ensures err.None? ==>
        && Valid() && lastAt == at && current == (if base == cfg.a || base == cfg.b then base else "other")
        && Appends(old(trace.file), trace.file,
                   Stamped(SettingsRecord(cfg, current), old(trace.seqNo) + 1, at - trace.start))
        && pending == old(pending)[nextID := Pending(OnSettingsChanged, trace.seqNo, now, now - trace.start)]
    {
      hide Kept, RestartSeen, ConfigOk, Size, Taken, Asked, NoStop, Captured, Present, Appends, Knows;
      current := MapBase(cfg, base);
      EventCaptured(cfg, SettingsRecord(cfg, current), trace.seqNo + 1, at - trace.start);
      var written := WriteEvent(at, SettingsRecord(cfg, current));
      if written.Err? { return Some(written.error); }
      KnowsSettings(old(trace.file), trace.file, cfg, trace.start, heard, old(current), restartSeq, restartAt, base, at);
      heard := heard + [Told(base, at)];
      err := SendSnapshot(now, OnSettingsChanged, written.value.seqNo);
    }

    /** A media action on the watched input; a restart is remembered and followed by a snapshot. */
    method HandleAction(at: int, now: int, raw: Action) returns (err: Option<Failure>)
      requires Valid() && Truthful() && lastAt <= at <= now
      modifies this, trace
      ensures Sound() && err != Some(SyncFailed)
      ensures err.None? ==> Truthful() && heard == old(heard) + [Acted(raw, at)]
      ensures err.None? ==>
        && Valid() && lastAt == at
        && Appends(old(trace.file), trace.file,
                   Stamped(ActionRecord(cfg, SafeMediaAction(raw), current), old(trace.seqNo) + 1, at - trace.start))
        && (if raw.Restart?
            then restartSeq == trace.seqNo && restartAt == at
                 && pending == old(pending)[nextID := Pending(OnRestart, trace.seqNo, now, now - trace.start)]
            else restartSeq == old(restartSeq) && pending == old(pending))
    {
      hide Kept, RestartSeen, ConfigOk, Size, Taken, Asked, NoStop, Captured, Present, Appends, Knows;
      var action := SafeMediaAction(raw);
      EventCaptured(cfg, ActionRecord(cfg, action, current), trace.seqNo + 1, at - trace.start);
      var written := WriteEvent(at, ActionRecord(cfg, action, current));
      if written.Err? { return Some(written.error); }
      KnowsAction(old(trace.file), trace.file, cfg, trace.start, heard, current, restartSeq, restartAt, raw, at);
      heard := heard + [Acted(raw, at)];
      if !action.Restart? { return None; }
      restartSeq, restartAt := written.value.seqNo, at;
      err := SendSnapshot(now, OnRestart, written.value.seqNo);
    }

    function Ended(at: int): Record
      reads this
    {
      EndedRecord(cfg, current, restartSeq, if restartSeq == 0 then None else Some(at - restartAt))
    }

    method WriteEnded(at: int) returns (written: Result<Record, Failure>)
      requires Valid() && Truthful() && lastAt <= at
      modifies this`lastAt, this`heard, trace
      ensures Sound() && written != Err(SyncFailed)
      ensures written.Ok? ==> Truthful() && heard == old(heard) + [Finished(at)]
      ensures written.Ok? ==>
        && Valid() && lastAt == at && written.value.seqNo == trace.seqNo == old(trace.seqNo) + 1
        && Appends(old(trace.file), trace.file, Stamped(old(Ended(at)), old(trace.seqNo) + 1, at - trace.start))
        && Unused(trace.file, pending, settling)
    {
      hide Kept, RestartSeen, ConfigOk, Size, Unused, NoStop, Captured, Present, Appends, Knows;
      var since := None;
      if restartSeq != 0 && 0 <= at - restartAt { since := Some(at - restartAt); }
      var record := EndedRecord(cfg, current, restartSeq, since);
      EventCaptured(cfg, record, trace.seqNo + 1, at - trace.start);
      written := WriteEvent(at, record);
      if written.Err? { return; }
      KnowsEnd(old(trace.file), trace.file, cfg, trace.start, heard, current, restartSeq, restartAt, at);
      heard := heard + [Finished(at)];
    }

    /** The watched input ran to its end: two snapshots follow, one of them after the settle window. */
    method HandleEnded(at: int, now: int) returns (err: Option<Failure>)
      requires Valid() && Truthful() && lastAt <= at <= now
      modifies this, trace
      ensures Sound() && err != Some(SyncFailed)
      ensures err.None? ==> Truthful() && heard == old(heard) + [Finished(at)]
      ensures err.None? ==>
        && Valid() && lastAt == at
        && Appends(old(trace.file), trace.file, Stamped(old(Ended(at)), old(trace.seqNo) + 1, at - trace.start))
        && pending == old(pending)[nextID := Pending(EndedImmediate, trace.seqNo, now, now - trace.start)]
        && settling == old(settling) + {trace.seqNo}
    {
      hide Kept, RestartSeen, ConfigOk, Size, NoStop, Captured, Present, Appends, EndedRecord, Stamped, Knows, Unused;
      hide Valid, Sound;
      var written := WriteEnded(at);
      if written.Err? { return Some(written.error); }
      err := PromiseSnapshots(now);
    }

    /** Requests a snapshot for the newest line, an end event, and promises another. */
    method PromiseSnapshots(now: int) returns (err: Option<Failure>)
      requires Valid() && lastAt <= now && Unused(trace.file, pending, settling)
      modifies this`pending, this`nextID, this`pendingSettles, this`settling
      ensures Sound() && err != Some(SyncFailed)
      ensures err.None? ==>
        && Valid()
        && pending == old(pending)[nextID := Pending(EndedImmediate, trace.seqNo, now, now - trace.start)]
        && settling == old(settling) + {trace.seqNo}
    {
      hide Kept, RestartSeen, ConfigOk, Size, Taken, Asked, NoStop;
      KeptMeansNoStop(trace.file, cfg, trace.start, lastAt - trace.start, pending, nextID, settling);
      AskedForAnotherReason(pending, nextID + 1, Pending(EndedImmediate, trace.seqNo, now, now - trace.start),
                            EndedSettle, trace.seqNo);
      err := SendSnapshot(now, EndedImmediate, trace.seqNo);
      if err.Some? { return; }
      err := ScheduleSettle();
    }

    /** Promises a second snapshot for the newest line. */
    method ScheduleSettle() returns (err: Option<Failure>)
      requires Valid() && trace.seqNo !in settling
      requires !Taken(trace.file, EndedSettle, trace.seqNo) && !Asked(pending, EndedSettle, trace.seqNo)
      modifies this`pendingSettles, this`settling
      ensures Valid() && Sound()
      ensures err == if MAX_PENDING <= old(pendingSettles) then Some(PendingLimit) else None
      ensures err.None? ==> settling == old(settling) + {trace.seqNo} && pendingSettles == old(pendingSettles) + 1
    {
      hide Kept, RestartSeen, ConfigOk, Size, Taken, Asked, NoStop;
      KeptMeansNoStop(trace.file, cfg, trace.start, lastAt - trace.start, pending, nextID, settling);
      if MAX_PENDING <= pendingSettles { return Some(PendingLimit); }
      KeptWithTimer(trace.file, cfg, trace.start, lastAt - trace.start, pending, nextID, settling);
      pendingSettles := pendingSettles + 1;
      settling := settling + {trace.seqNo};
      err := None;
    }

    /** A settle timer fires: the promised second look at the input is requested. */
    method FireSettle(now: int, related: nat) returns (err: Option<Failure>)
      requires Valid() && lastAt <= now && related in settling
      modifies this`pending, this`nextID, this`pendingSettles, this`settling
      ensures Valid() && Sound() && lastAt == old(lastAt)
      ensures settling == old(settling) - {related} && pendingSettles == old(pendingSettles) - 1
      ensures err.None? ==> pending == old(pending)[nextID := Pending(EndedSettle, related, now, now - trace.start)]
      ensures err.Some? ==> err.value.PendingLimit? || err.value.ConnectionClosed?
    {
      hide Kept, RestartSeen, ConfigOk, Size, Taken, Asked, NoStop;
      KeptAfterTimer(trace.file, cfg, trace.start, lastAt - trace.start, pending, nextID, settling, related);
      if pendingSettles <= 0 { return Some(Protocol); }
      pendingSettles := pendingSettles - 1;
      settling := settling - {related};
      err := SendSnapshot(now, EndedSettle, related);
    }

    /** An answer uses up its request, however its time compares with the request's. */
    method HandleResponse(at: int, response: Response) returns (err: Option<Failure>)
      requires Valid() && Truthful() && lastAt <= at
      modifies this, trace
      ensures Sound() && err != Some(SyncFailed)
      ensures err.None? ==>
        response.base.Some? && Truthful() && heard == old(heard) + [Answered(response.base.value, at)]
      ensures err.None? ==>
        && Valid() && lastAt == at
        && response.id in old(pending) && pending == old(pending) - {response.id}
        && response.result && response.base.Some?
        && current == (if response.base.value in {cfg.a, cfg.b} then response.base.value else "other")
        && var p := old(pending)[response.id];
           var elapsed := at - trace.start;
           Appends(old(trace.file), trace.file,
                   Stamped(SnapshotRecord(cfg, p.trigger, p.related, p.sentNS, elapsed, true, response.code, current),
                           old(trace.seqNo) + 1, elapsed))
    {
      hide Kept, RestartSeen, ConfigOk, Size, NoStop, Captured, Present, Knows;
      KeptMeansNoStop(trace.file, cfg, trace.start, lastAt - trace.start, pending, nextID, settling);
      if response.id !in pending || !response.matchesType { return Some(Protocol); }
      var p := pending[response.id];
      KeptRequestOk(trace.file, cfg, trace.start, lastAt - trace.start, pending, nextID, settling, response.id);
      var elapsed := ElapsedSince(trace.start, at);
      pending := pending - {response.id};
      var basename := "";
      if response.result {
        if response.base.None? { return Some(Protocol); }
        basename := MapBase(cfg, response.base.value);
        current := basename;
      }
      var record := SnapshotRecord(cfg, p.trigger, p.related, p.sentNS, elapsed, response.result, response.code, basename);
      var written := trace.Write(at, record);
      NoStopGrows(old(trace.file), trace.file);
      if written.Err? { return Some(written.error); }
      if !response.result { return Some(Protocol); }
      ghost var r := Stamped(record, old(trace.seqNo) + 1, elapsed);
      SnapshotCaptured(cfg, p, trace.start, at, response.code, basename, old(trace.seqNo));
      KeptAfterResponse(old(trace.file), trace.file, r, cfg, trace.start, lastAt - trace.start,
                        old(pending), nextID, settling, response.id);
      RestartSeenGrows(old(trace.file), trace.file, r);
      KnowsAnswer(old(trace.file), trace.file, cfg, trace.start, heard, old(current), restartSeq, restartAt, p,
                  response.code, response.base.value, at);
      heard := heard + [Answered(response.base.value, at)];
      lastAt := at;
      err := None;
    }

    method HandleEvent(at: int, now: int, event: Event) returns (err: Option<Failure>)
      requires Valid() && Truthful() && lastAt <= at <= now
      modifies this, trace
      ensures Sound() && err != Some(SyncFailed)
      ensures err.None? ==> Valid() && Truthful()
      ensures err.None? ==> lastAt == if event.input == cfg.input then at else old(lastAt)
      ensures event.input != cfg.input ==> err.None? && trace.file == old(trace.file) && pending == old(pending)
    {
      hide Valid, Sound, Truthful;
      if event.input != cfg.input { SoundWhileValid(); return None; }
      match event {
        case SettingsEvent(_, base) => err := HandleSettings(at, now, base);
        case ActionEvent(_, action) => err := HandleAction(at, now, action);
        case EndedEvent(_) => err := HandleEnded(at, now);
      }
    }

    method HandleFrame(at: int, now: int, frame: Frame) returns (err: Option<Failure>)
      requires Valid() && Truthful() && lastAt <= at <= now
      modifies this, trace
      ensures Sound() && err != Some(SyncFailed)
      ensures err.None? ==> Valid() && Truthful()
      ensures frame.Undecodable? ==> err == Some(Protocol)
      ensures frame.Unrelated? ==> err.None? && trace.file == old(trace.file) && pending == old(pending)
    {
      hide Valid, Sound, Truthful;
      SoundWhileValid();
      match frame {
        case Undecodable => err := Some(Protocol);
        case Unrelated => err := None;
        case EventFrame(event) => err := HandleEvent(at, now, event);
        case ResponseFrame(response) => err := HandleResponse(at, response);
      }
    }

    lemma SoundWhileValid()
      requires Valid()
      ensures Sound()
    {
      KeptMeansNoStop(trace.file, cfg, trace.start, lastAt - trace.start, pending, nextID, settling);
    }

    /** The event loop: frames, settle timers, timeouts and the end of the capture, in any order. */
    method Run(steps: nat) returns (err: Option<Failure>)
      requires Valid() && Truthful()
      modifies this, trace
      ensures Sound()
      ensures err.None? ==> Valid() && Truthful()
      ensures err != Some(SyncFailed)
    {
      hide Valid, Sound, Truthful;
      SoundWhileValid();
      var n := 0;
      while n < steps
        invariant Valid() && Sound() && Truthful()
      {
        n := n + 1;
        if
        case true => return None;
        case true => return Some(DurationLimit);
        case true => return Some(ConnectionClosed);
        case true =>
          var frame: Frame := *;
          var at: int :| lastAt <= at;
          var now: int :| at <= now;
          err := HandleFrame(at, now, frame);
          if err.Some? { return; }
        case settling != {} =>
          ghost var some := Sets.Member(settling);
          var related :| related in settling;
          var now: int :| lastAt <= now;
          err := FireSettle(now, related);
          if err.Some? { return; }
        case true =>
          var at: int := *;
          if exists id :: id in pending && REQUEST_TIMEOUT <= at - pending[id].sentAt { return Some(RequestTimeout); }
      }
      err := None;
    }
  }

  // ---- What a trace proves about OBS ----

  /**
   A record names B exactly if the file OBS had named last is B; if B is itself called "other", also
   if it is any file but A, or none was named yet.
   */
  lemma NamesTell(lines: seq<Line>, cfg: Config, start: int, heard: seq<Heard>, i: nat)
    requires ConfigOk(cfg) && Faithful(lines, cfg, start, heard) && i < |heard|
    ensures var last := LastBase(heard[..i + 1]);
      lines[i + 1].Decoded? && (lines[i + 1].record.basename == cfg.b <==>
        last == Some(cfg.b) || (cfg.b == "other" && last != Some(cfg.a)))
    ensures var last := LastBase(heard[..i + 1]);
      lines[i + 1].record.basename == cfg.a <==> last == Some(cfg.a) || (cfg.a == "other" && last != Some(cfg.b))
  {
    assert LineTells(lines, cfg, start, heard, i);
    assert heard[..i + 1] == heard[..i] + [heard[i]];
    HearOne(heard[..i], heard[i]);
  }

  /**
   A correlation found in a capture's file is one OBS reported: it last named A when it restarted the input,
   last named B when it restarted it next, and the input then ended within two seconds, B still named last.
   */
  lemma VerdictWasHeard(file: seq<Line>, captured: seq<Line>, cfg: Config, start: int, heard: seq<Heard>,
                        a: nat, b: nat, e: nat, i: nat, s: nat)
    requires ConfigOk(cfg) && cfg.a != "other" && cfg.b != "other"
    requires StoppedTrace(file, captured, cfg) && Faithful(captured, cfg, start, heard)
    requires forall k | 0 <= k < |file| :: file[k].Decoded?
    requires Verifier.Correlated(Records(file), cfg.a, cfg.b, a, b, e, i, s)
    ensures 0 < a < b < e <= |heard|
    ensures heard[a - 1].Acted? && heard[a - 1].action.Restart? && LastBase(heard[..a]) == Some(cfg.a)
    ensures heard[b - 1].Acted? && heard[b - 1].action.Restart? && LastBase(heard[..b]) == Some(cfg.b)
    ensures heard[e - 1].Finished? && LastBase(heard[..e]) == Some(cfg.b)
    ensures 0 <= heard[e - 1].at - heard[b - 1].at < 2 * SECOND
  {
    var rs := Records(file);
    assert rs[a] == file[a].record && rs[b] == file[b].record && rs[e] == file[e].record;
    HeardAt(file, captured, cfg, start, heard, a);
    HeardAt(file, captured, cfg, start, heard, b);
    HeardAt(file, captured, cfg, start, heard, e);
    hide StoppedTrace, Faithful, ConfigOk, Records, LastBase;
  }

  /** A media action or end event in the file is the report at that place, about the file named last. */
  lemma HeardAt(file: seq<Line>, captured: seq<Line>, cfg: Config, start: int, heard: seq<Heard>, k: nat)
    requires ConfigOk(cfg) && cfg.a != "other" && cfg.b != "other"
    requires StoppedTrace(file, captured, cfg) && Faithful(captured, cfg, start, heard)
    requires k < |file| && file[k].Decoded? && (file[k].record.kind.MediaAction? || file[k].record.kind.PlaybackEnded?)
    ensures 0 < k <= |heard| && file[k].record.elapsed == heard[k - 1].at - start
    ensures file[k].record.kind.PlaybackEnded? <==> heard[k - 1].Finished?
    ensures IsRestart(file[k].record) ==> heard[k - 1].Acted? && heard[k - 1].action.Restart?
    ensures file[k].record.basename == cfg.a <==> LastBase(heard[..k]) == Some(cfg.a)
    ensures file[k].record.basename == cfg.b <==> LastBase(heard[..k]) == Some(cfg.b)
  {
    CapturedShape(captured, cfg, 0);
    assert file[..|captured|][0] == captured[0];
    if k < |captured| { assert file[..|captured|][k] == captured[k]; }
    assert LineTells(captured, cfg, start, heard, k - 1);
    NamesTell(captured, cfg, start, heard, k - 1);
    hide Names, LastBase;
  }

  // ---- A whole capture ----

  /** What a run that did not end in an orderly stop leaves behind is rejected. */
  lemma FailedTraceIsRejected(lines: seq<Line>, file: seq<Line>)
    requires NoStop(lines) && |lines| <= |file| <= |lines| + 1 && file[..|lines|] == lines
    requires |file| == |lines| + 1 && file[|lines|].Decoded? ==> file[|lines|].record.reason == Failure
    ensures !ValidTrace(file)
  {
    if 2 <= |file| && file[|file| - 1].Decoded? && file[|file| - 1].record.kind.Stopped? {
      var n := |file| - 1;
      if |file| == |lines| { assert file[n] == lines[n]; }
      hide Size, FieldsAllowed, RestartSeen, HeaderOk;
      assert !(LineOk(file, 0, Size(file)) && LineOk(file, n, Size(file)));
    }
  }

  lemma StoppedIsOrderly(captured: seq<Line>, file: seq<Line>, cfg: Config, elapsed: int)
    requires CapturedTrace(captured, cfg) && UpTo(captured, elapsed) && Size(file) <= cfg.maxBytes
    requires |file| == |captured| + 1 && file[..|captured|] == captured
    requires var last := file[|captured|];
      && last.Decoded? && 0 < last.size <= MAX_LINE_BYTES && last.fields == Present(last.record)
      && elapsed <= last.record.elapsed
      && last.record == Stamped(StoppedRecord(Signal, |captured|, Size(captured)), |captured| + 1, last.record.elapsed)
    ensures StoppedTrace(file, captured, cfg)
  {
    hide Size, Present, Captured;
    assert CapturedLine(captured, |captured| - 1, cfg);
  }

  lemma StoppedAnswersOnce(captured: seq<Line>, file: seq<Line>, cfg: Config, pending: map<nat, Pending>, settling: set<nat>)
    requires StoppedTrace(file, captured, cfg) && Once(captured, pending, settling)
    ensures forall i | 0 <= i < |file| :: file[i].Decoded?
    ensures Verifier.AnsweredOnce(Records(file))
  {
    forall i | 0 <= i < |file| ensures file[i].Decoded? && (i < |captured| ==> file[i] == captured[i]) {
      if i < |captured| {
        assert file[i] == captured[i];
        CapturedShape(captured, cfg, i);
      }
    }
    var rs := Records(file);
    forall k, l | 0 <= k < l < |rs| && rs[k].kind.Snapshot? && rs[l].kind.Snapshot?
      ensures rs[k].trigger != rs[l].trigger || rs[k].related != rs[l].related
    {
      assert rs[k] == captured[k].record && rs[l] == captured[l].record;
    }
  }

  lemma HeaderStartsTrace(lines: seq<Line>, cfg: Config, elapsed: int)
    requires |lines| == 1 && lines[0].Decoded? && 0 < lines[0].size <= MAX_LINE_BYTES && 0 <= elapsed
    requires lines[0].record == Stamped(HeaderRecord(cfg), 1, elapsed) && lines[0].fields == Present(lines[0].record)
    ensures CapturedTrace(lines, cfg)
  {
    assert CapturedLine(lines, 0, cfg);
  }

  /**
   A whole capture. Only a signal ends it without an error; then the file passes the
   verifier exactly when the build was clean and every snapshot is usable, and it
   answers each request once. Any other end leaves a file the verifier rejects.
   */
  method Capture(cfg: Config, start: int, steps: nat)
      returns (file: seq<Line>, err: Option<Failure>, ghost heard: seq<Heard>)
    ensures err.None? || err.value.SyncFailed? ==>
      && ConfigOk(cfg) && file != [] && StoppedTrace(file, file[..|file| - 1], cfg)
      && (ValidTrace(file) <==> CleanBuild(cfg) && forall i | 0 < i < |file| - 1 :: Usable(file[i]))
      && (forall i | 0 <= i < |file| :: file[i].Decoded?) && Verifier.AnsweredOnce(Records(file))
      && Faithful(file[..|file| - 1], cfg, start, heard)
    ensures err.Some? && !err.value.SyncFailed? ==> !ValidTrace(file)
    ensures !Acceptable(cfg) ==> err == Some(InvalidConfig) && file == []
  {
    hide Size, Present, StoppedTrace, ValidTrace, CleanBuild, Usable, CapturedTrace, Acceptable, HeaderRecord, Records;
    heard := [];
    if !Acceptable(cfg) {
      FailedTraceIsRejected([], []);
      return [], Some(InvalidConfig), [];
    }
    assert 0 <= cfg.maxBytes by { LimitsPositive(cfg); }
    var trace := new TraceWriter(start, cfg.maxBytes);
    var headerAt: int :| start <= headerAt;
    if !cfg.version.Supported() {
      file := Abandon(trace, headerAt);
      return file, Some(Protocol), [];
    }
    if * {
      file := Abandon(trace, headerAt);
      return file, Some(ConnectionClosed), [];
    }
    var written := trace.Write(headerAt, HeaderRecord(cfg));
    if written.Err? {
      file := Abandon(trace, headerAt);
      return file, Some(written.error), [];
    }
    HeaderStartsTrace(trace.file, cfg, headerAt - start);
    file, err, heard := Watch(cfg, trace, headerAt, steps);
    if err.None? || err.value.SyncFailed? { CaptureAgreesWithVerifier(file, file[..|file| - 1], cfg); }
  }

  /** The capture from the initial snapshot on. */
  method Watch(cfg: Config, trace: TraceWriter, headerAt: int, steps: nat)
      returns (file: seq<Line>, err: Option<Failure>, ghost heard: seq<Heard>)
    requires ConfigOk(cfg) && !trace.closed && trace.Accounted() && trace.maxBytes == cfg.maxBytes
    requires |trace.file| == 1 && CapturedTrace(trace.file, cfg)
    requires trace.file[0].Decoded? && trace.file[0].record.elapsed == headerAt - trace.start
    requires trace.start <= headerAt
    modifies trace
    ensures if err.None? || err.value.SyncFailed? then
        && file != [] && StoppedTrace(file, file[..|file| - 1], cfg)
        && (forall i | 0 <= i < |file| :: file[i].Decoded?) && Verifier.AnsweredOnce(Records(file))
        && Faithful(file[..|file| - 1], cfg, trace.start, heard)
      else !ValidTrace(file)
  {
    hide Size, Present, Captured, StoppedTrace, CapturedTrace, Kept, RestartSeen, Taken, Asked, Watched, ConfigOk, NoStop;
    hide Faithful;
    var runtime := new Runtime(cfg, trace, headerAt);
    NothingAsked(runtime.pending, Initial, 0);
    var now: int :| headerAt <= now;
    err := runtime.SendSnapshot(now, Initial, 0);
    if err.None? { err := runtime.Run(steps); }
    heard := runtime.heard;
    if err.Some? {
      var closedAt: int := *;
      file := Abandon(trace, closedAt);
      return;
    }
    var closedAt: int :| runtime.lastAt <= closedAt;
    err := Stop(runtime, closedAt);
    file := trace.file;
  }

  lemma LimitsPositive(cfg: Config)
    requires Acceptable(cfg)
    ensures 0 <= cfg.maxBytes
  {
  }

  lemma NothingAsked(pending: map<nat, Pending>, trigger: Trigger, related: nat)
    requires pending == map[]
    ensures !Asked(pending, trigger, related)
  {
  }

  /** A failed capture notes that it failed, and closes the file as a failure. */
  method Abandon(trace: TraceWriter, at: int) returns (file: seq<Line>)
    requires !trace.closed && NoStop(trace.file)
    modifies trace
    ensures file == trace.file && !ValidTrace(file)
  {
    trace.WriteIntegrityFailure(at);
    NoStopGrows(old(trace.file), trace.file);
    ghost var before := trace.file;
    var err := trace.Close(at, Failure);
    file := trace.file;
    FailedTraceIsRejected(before, file);
  }

  /** An orderly stop. */
  method Stop(runtime: Runtime, at: int) returns (err: Option<Failure>)
    requires runtime.Valid() && runtime.Truthful() && runtime.lastAt <= at
    modifies runtime.trace
    ensures var file := runtime.trace.file;
      if err.None? || err.value.SyncFailed? then
        && file != [] && StoppedTrace(file, file[..|file| - 1], runtime.cfg)
        && (forall i | 0 <= i < |file| :: file[i].Decoded?) && Verifier.AnsweredOnce(Records(file))
        && Faithful(file[..|file| - 1], runtime.cfg, runtime.trace.start, runtime.heard)
      else !ValidTrace(file)
  {
    hide Size, Present, Captured, StoppedTrace, Faithful;
    var trace := runtime.trace;
    ghost var captured := trace.file;
    ghost var elapsed := runtime.lastAt - trace.start;
    runtime.SoundWhileValid();
    err := trace.Close(at, Signal);
    if err.None? || err.value.SyncFailed? {
      assert trace.file[..|trace.file| - 1] == captured;
      StoppedIsOrderly(captured, trace.file, runtime.cfg, elapsed);
      StoppedAnswersOnce(captured, trace.file, runtime.cfg, runtime.pending, runtime.settling);
    } else {
      FailedTraceIsRejected(captured, trace.file);
    }
  }
}
