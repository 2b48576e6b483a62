/**
 The evidence monitor: an event loop that numbers and byte-accounts every record
 it writes. What it writes is compared with what the verifier accepts.
 */
module Monitor {
  import opened Results
  import opened Evidence

  const MAX_PENDING: nat := 8

  datatype Config = Config(
    input: string, a: string, b: string, revision: string, modified: bool,
    maxBytes: int, maxDuration: int, version: Version)

  datatype Failure =
    | TraceClosed | TraceLimit | WriteFailed | Protocol | ConnectionClosed | DurationLimit | RequestTimeout
    | PendingLimit | SyncFailed | InvalidConfig

  /** What configuration validation lets through. */
  predicate Acceptable(cfg: Config) {
    && SafeName(cfg.input) && ValidBasename(cfg.a) && ValidBasename(cfg.b) && cfg.a != cfg.b
    && MIN_TRACE_BYTES <= cfg.maxBytes <= MAX_TRACE_BYTES && MIN_DURATION <= cfg.maxDuration <= MAX_DURATION
  }

  /** An acceptable configuration and a peer of a supported version. */
  predicate ConfigOk(cfg: Config) { Acceptable(cfg) && cfg.version.Supported() }

  // ---- The records it writes ----

  function HeaderRecord(cfg: Config): Record {
    BLANK.(kind := Header, input := cfg.input,
           header := HeaderFields(SCHEMA, TOOL, SafeRevision(cfg.revision), Some(cfg.modified), cfg.a, cfg.b,
                                  Some(cfg.version), 1, EVENT_SUBSCRIPTIONS, CORRELATION_WINDOW,
                                  cfg.maxBytes, MAX_FRAME_BYTES, cfg.maxDuration))
  }

  function SettingsRecord(cfg: Config, basename: string): Record {
    BLANK.(kind := SettingsChanged, event := InputSettingsChanged, input := cfg.input, basename := basename)
  }

  function ActionRecord(cfg: Config, action: Action, basename: string): Record {
    BLANK.(kind := MediaAction, event := MediaInputActionTriggered, input := cfg.input, action := action,
           basename := basename)
  }

  function EndedRecord(cfg: Config, basename: string, lastRestart: nat, since: Option<int>): Record {
    BLANK.(kind := PlaybackEnded, event := MediaInputPlaybackEnded, input := cfg.input, basename := basename,
           lastRestart := lastRestart, since := since)
  }

  function SnapshotRecord(cfg: Config, trigger: Trigger, related: nat, sent: int, response: int,
                          result: bool, code: int, basename: string): Record {
    BLANK.(kind := Snapshot, requestMethod := GetInputSettings, input := cfg.input, trigger := trigger,
           related := related, sent := sent, response := response, result := Some(result), code := code,
           basename := basename)
  }

  function StoppedRecord(reason: Reason, records: nat, bytes: int): Record {
    BLANK.(kind := Stopped, reason := reason, records := records, bytes := bytes)
  }

  function Stamped(r: Record, seqNo: nat, elapsed: int): Record { r.(seqNo := seqNo, elapsed := elapsed) }

  /** Only the two file names under observation are ever written; any other becomes "other". */
  function MapBase(cfg: Config, base: string): string {
    if base == cfg.a || base == cfg.b then base else OTHER
  }

  predicate Watched(cfg: Config, basename: string) { basename == cfg.a || basename == cfg.b || basename == OTHER }

  /** The records of a run that is still going on, apart from the header. */
  predicate Captured(r: Record, cfg: Config) {
    && Watched(cfg, r.basename)
    && match r.kind
       case SettingsChanged => r == Stamped(SettingsRecord(cfg, r.basename), r.seqNo, r.elapsed)
       case MediaAction =>
         && r == Stamped(ActionRecord(cfg, r.action, r.basename), r.seqNo, r.elapsed)
         && (r.action.Restart? || r.action.StopAction? || r.action.OtherAction?)
       case PlaybackEnded =>
         && r == Stamped(EndedRecord(cfg, r.basename, r.lastRestart, r.since), r.seqNo, r.elapsed)
         && r.lastRestart < r.seqNo
         && (if r.lastRestart == 0 then r.since.None? else r.since.Some? && 0 <= r.since.value)
       case Snapshot =>
         && r == Stamped(SnapshotRecord(cfg, r.trigger, r.related, r.sent, r.response, true, r.code, r.basename),
                         r.seqNo, r.elapsed)
         && ValidRequest(r.trigger, r.related, r.seqNo)
         && 0 <= r.sent && r.response == r.elapsed
       case _ => false
  }

  predicate ValidRequest(trigger: Trigger, related: nat, before: nat) {
    && !trigger.NoTrigger? && !trigger.BadTrigger?
    && (if trigger.Initial? then related == 0 else 0 < related < before)
  }

  predicate CapturedLine(lines: seq<Line>, i: nat, cfg: Config)
    requires i < |lines|
  {
    && lines[i].Decoded? && 0 < lines[i].size <= MAX_LINE_BYTES
    && var r := lines[i].record;
    && lines[i].fields == Present(r) && r.seqNo == i + 1 && 0 <= r.elapsed
    && (0 < i && lines[i - 1].Decoded? ==> lines[i - 1].record.elapsed <= r.elapsed)
    && (if i == 0 then r == Stamped(HeaderRecord(cfg), 1, r.elapsed) else Captured(r, cfg))
    && (r.kind.PlaybackEnded? && RestartSeen(lines[..i]) ==> r.lastRestart != 0)
  }

  /** The file as a capture in progress leaves it. */
  predicate CapturedTrace(lines: seq<Line>, cfg: Config) {
    lines != [] && forall i | 0 <= i < |lines| :: CapturedLine(lines, i, cfg)
  }

  // ---- What the verifier makes of it ----

  /** A build whose revision is known and unmodified. */
  predicate CleanBuild(cfg: Config) { !cfg.modified && SafeRevision(cfg.revision) != UNKNOWN }

  /**
   A snapshot the verifier cannot use: an odd success code, a request sent before the clock
   moved, or an answer stamped earlier than its request.
   */
  predicate Unusable(r: Record) {
    r.kind.Snapshot? && (r.code != SUCCESS_CODE || r.sent == 0 || r.response < r.sent)
  }

  lemma HeaderKeysPresent(cfg: Config, elapsed: int)
    requires ConfigOk(cfg)
    ensures Present(Stamped(HeaderRecord(cfg), 1, elapsed)) == HEADER_KEYS + {FInput}
  {
    assert SafeRevision(cfg.revision) != "";
    var r := Stamped(HeaderRecord(cfg), 1, elapsed);
    assert HeaderPresent(r.header) == HEADER_KEYS;
  }

  lemma HeaderVerdict(cfg: Config, elapsed: int, fileSize: int)
    requires ConfigOk(cfg)
    ensures var r := Stamped(HeaderRecord(cfg), 1, elapsed);
      && FieldsAllowed(r.kind, Present(r))
      && (HeaderOk(r, fileSize) <==> CleanBuild(cfg) && fileSize <= cfg.maxBytes)
  {
    HeaderKeysPresent(cfg, elapsed);
    hide Present;
  }

  lemma SnapshotVerdict(r: Record, cfg: Config, top: Record)
    requires ConfigOk(cfg) && Captured(r, cfg) && r.kind.Snapshot?
    requires top.input == cfg.input && top.header.a == cfg.a && top.header.b == cfg.b
    ensures FieldsAllowed(r.kind, Present(r)) && BodyOk(r, top) <==> !Unusable(r)
  {
    SnapshotKeys(r, cfg);
    hide Present;
  }

  lemma SnapshotKeys(r: Record, cfg: Config)
    requires ConfigOk(cfg) && Captured(r, cfg) && r.kind.Snapshot?
    ensures FieldsAllowed(r.kind, Present(r)) <==> r.sent != 0 && r.response != 0
  {
    hide Present, Captured, ConfigOk, HEADER_KEYS;
    SnapshotPresent(r, cfg);
    assert FSent in Present(r) <==> r.sent != 0;
    assert FResponse in Present(r) <==> r.response != 0;
  }

  lemma SnapshotPresent(r: Record, cfg: Config)
    requires ConfigOk(cfg) && Captured(r, cfg) && r.kind.Snapshot?
    ensures Present(r) == {FMethod, FInput, FBasename, FTrigger, FResult} + When(r.related != 0, FRelated)
      + When(r.sent != 0, FSent) + When(r.response != 0, FResponse) + When(r.code != 0, FCode)
  {
    SnapshotParts(r, cfg);
    hide HeaderPresent, EventPresent, RequestPresent, EndPresent;
  }

  lemma SnapshotParts(r: Record, cfg: Config)
    requires ConfigOk(cfg) && Captured(r, cfg) && r.kind.Snapshot?
    ensures r.header == NO_HEADER && HeaderPresent(NO_HEADER) == {}
    ensures EndPresent(r) == {} && EventPresent(r) == {FInput, FBasename}
    ensures RequestPresent(r) == {FMethod, FTrigger, FResult} + When(r.related != 0, FRelated)
      + When(r.sent != 0, FSent) + When(r.response != 0, FResponse) + When(r.code != 0, FCode)
  {
  }

  lemma EventVerdict(r: Record, cfg: Config, top: Record)
    requires ConfigOk(cfg) && Captured(r, cfg) && !r.kind.Snapshot?
    requires top.input == cfg.input && top.header.a == cfg.a && top.header.b == cfg.b
    ensures FieldsAllowed(r.kind, Present(r)) && BodyOk(r, top)
  {
    match r.kind {
      case SettingsChanged => assert Present(r) == {FEvent, FInput, FBasename};
      case MediaAction => assert Present(r) == {FEvent, FInput, FAction, FBasename};
      case PlaybackEnded =>
        assert Present(r) == {FEvent, FInput, FBasename}
          + When(r.lastRestart != 0, FLastRestart) + When(r.since.Some?, FSince);
      case _ =>
    }
  }

  lemma BodyVerdict(r: Record, cfg: Config, top: Record)
    requires ConfigOk(cfg) && Captured(r, cfg)
    requires top == Stamped(HeaderRecord(cfg), 1, top.elapsed)
    ensures FieldsAllowed(r.kind, Present(r)) && BodyOk(r, top) <==> !Unusable(r)
  {
    hide Captured, Present, FieldsAllowed, BodyOk, ConfigOk;
    if r.kind.Snapshot? {
      SnapshotVerdict(r, cfg, top);
    } else {
      EventVerdict(r, cfg, top);
    }
  }

  /** The file after an orderly stop. */
  predicate StoppedTrace(lines: seq<Line>, captured: seq<Line>, cfg: Config) {
    && CapturedTrace(captured, cfg) && |lines| == |captured| + 1 && lines[..|captured|] == captured
    && var last := lines[|captured|];
    && last.Decoded? && 0 < last.size <= MAX_LINE_BYTES
    && captured[|captured| - 1].Decoded? && captured[|captured| - 1].record.elapsed <= last.record.elapsed
    && last.record == Stamped(StoppedRecord(Signal, |captured|, Size(captured)), |captured| + 1, last.record.elapsed)
    && last.fields == Present(last.record)
    && Size(lines) <= cfg.maxBytes
  }

  predicate Usable(line: Line) { line.Decoded? && !Unusable(line.record) }

  /** The parts of the line rules that no capture in progress can break. */
  lemma CapturedShape(captured: seq<Line>, cfg: Config, i: nat)
    requires CapturedTrace(captured, cfg) && i < |captured|
    ensures captured[i].Decoded? && !captured[i].record.kind.Stopped?
    ensures captured[i].record.kind.Header? <==> i == 0
    ensures i == 0 ==> captured[0].record == Stamped(HeaderRecord(cfg), 1, captured[0].record.elapsed)
    ensures 0 < i ==> Captured(captured[i].record, cfg)
  {
    hide Present;
    assert CapturedLine(captured, i, cfg);
  }

  lemma LineReduces(lines: seq<Line>, captured: seq<Line>, cfg: Config, i: nat)
    requires StoppedTrace(lines, captured, cfg) && i < |captured|
    requires captured[i].Decoded? && !captured[i].record.kind.Stopped? && captured[0].Decoded?
    ensures var r := captured[i].record;
      LineOk(lines, i, Size(lines)) <==>
        && FieldsAllowed(r.kind, Present(r))
        && (if i == 0 then HeaderOk(r, Size(lines)) else BodyOk(r, captured[0].record))
  {
    hide Captured, Present, FieldsAllowed, HeaderOk, BodyOk, HeaderRecord, StoppedRecord, Size;
    assert lines[i] == captured[i] && lines[..i] == captured[..i] && lines[0] == captured[0];
    assert CapturedLine(captured, i, cfg);
    if 0 < i { assert lines[i - 1] == captured[i - 1]; }
  }

  lemma CapturedLineVerdict(lines: seq<Line>, captured: seq<Line>, cfg: Config, i: nat)
    requires ConfigOk(cfg) && StoppedTrace(lines, captured, cfg) && i < |captured|
    ensures LineOk(lines, i, Size(lines)) <==> if i == 0 then CleanBuild(cfg) else Usable(captured[i])
  {
    CapturedShape(captured, cfg, i);
    CapturedShape(captured, cfg, 0);
    LineReduces(lines, captured, cfg, i);
    WithinLimit(lines, captured, cfg);
    hide LineOk, Present, FieldsAllowed, HeaderOk, BodyOk, StoppedTrace, Captured, ConfigOk, Unusable, CleanBuild;
    if i == 0 {
      HeaderVerdict(cfg, captured[0].record.elapsed, Size(lines));
    } else {
      BodyVerdict(captured[i].record, cfg, captured[0].record);
    }
  }

  lemma WithinLimit(lines: seq<Line>, captured: seq<Line>, cfg: Config)
    requires StoppedTrace(lines, captured, cfg)
    ensures Size(lines) <= cfg.maxBytes && CapturedTrace(captured, cfg) && captured != []
    ensures |lines| == |captured| + 1
    ensures lines[|captured|].Decoded? && lines[|captured|].record.kind.Stopped?
  {
  }

  lemma {:induction false} SizePositive(lines: seq<Line>)
    ensures lines != [] ==> 0 < Size(lines)
  {
  }

  lemma StopFields(records: nat, bytes: int, elapsed: int, top: Record)
    requires 0 < records && 0 < bytes
    ensures var r := Stamped(StoppedRecord(Signal, records, bytes), records + 1, elapsed);
            FieldsAllowed(r.kind, Present(r)) && BodyOk(r, top)
  {
    var r := Stamped(StoppedRecord(Signal, records, bytes), records + 1, elapsed);
    assert Present(r) == {FReason, FRecords, FBytes};
  }

  lemma StopLineVerdict(lines: seq<Line>, captured: seq<Line>, cfg: Config)
    requires StoppedTrace(lines, captured, cfg)
    ensures LineOk(lines, |captured|, Size(lines))
  {
    var n := |captured|;
    SizePositive(captured);
    CapturedShape(captured, cfg, 0);
    StopFields(n, Size(captured), lines[n].record.elapsed, captured[0].record);
    StopReduces(lines, captured, cfg);
  }

  lemma StopReduces(lines: seq<Line>, captured: seq<Line>, cfg: Config)
    requires StoppedTrace(lines, captured, cfg)
    requires var r := lines[|captured|].record;
             captured[0].Decoded? && FieldsAllowed(r.kind, Present(r)) && BodyOk(r, captured[0].record)
    ensures LineOk(lines, |captured|, Size(lines))
  {
    hide Captured, Present, FieldsAllowed, HeaderOk, BodyOk, HeaderRecord, Size;
    var n := |captured|;
    assert CapturedLine(captured, n - 1, cfg) && lines[n - 1] == captured[n - 1] && lines[0] == captured[0];
    assert lines[..n] == captured;
  }

  /**
   Capture and verifier agree: the file of a capture that was stopped by signal is
   acceptable exactly when the build was clean and every snapshot was answered
   with the success code, no earlier than its request, and that request was sent after the
   capture clock had moved.
   */
  lemma CaptureAgreesWithVerifier(lines: seq<Line>, captured: seq<Line>, cfg: Config)
    requires ConfigOk(cfg) && StoppedTrace(lines, captured, cfg)
    ensures ValidTrace(lines) <==> CleanBuild(cfg) && forall i | 0 < i < |captured| :: Usable(captured[i])
  {
    WithinLimit(lines, captured, cfg);
    hide LineOk, Usable, CleanBuild, StoppedTrace;
    forall i | 0 <= i < |captured|
      ensures LineOk(lines, i, Size(lines)) <==> if i == 0 then CleanBuild(cfg) else Usable(captured[i])
    {
      CapturedLineVerdict(lines, captured, cfg, i);
    }
    StopLineVerdict(lines, captured, cfg);
    assert LineOk(lines, 0, Size(lines)) <==> CleanBuild(cfg);
  }

  // ---- What the verifier accepts was written like this ----

  /** Keys and values belong together: a value that is not zero has its key on the line. */
  predicate KeysCover(line: Line) { line.Decoded? ==> Present(line.record) <= line.fields }

  lemma NamesAbsent(h: HeaderFields)
    requires NamesPresent(h) == {}
    ensures h.schema == h.tool == h.revision == h.a == h.b == "" && h.modified == None && h.version == None
  {
    var p := NamesPresent(h);
    assert FHeader("schema") !in p && FHeader("tool") !in p && FHeader("revision") !in p && FHeader("modified") !in p;
    assert FHeader("a_basename") !in p && FHeader("b_basename") !in p && FHeader("obs_websocket_version") !in p;
  }

  lemma NumbersAbsent(h: HeaderFields)
    requires NumbersPresent(h) == {}
    ensures h.rpcVersion == h.subscriptions == h.window == h.maxBytes == h.maxFrameBytes == h.maxDuration == 0
  {
    var p := NumbersPresent(h);
    assert FHeader("rpc_version") !in p && FHeader("subscriptions") !in p && FHeader("correlation_window_ns") !in p;
    assert FHeader("max_bytes") !in p && FHeader("max_frame_bytes") !in p && FHeader("max_duration_ns") !in p;
  }

  lemma HeaderAbsent(h: HeaderFields)
    requires HeaderPresent(h) == {}
    ensures h == NO_HEADER
  {
    hide NamesPresent, NumbersPresent;
    assert NamesPresent(h) <= HeaderPresent(h) && NumbersPresent(h) <= HeaderPresent(h);
    assert NamesPresent(h) == {} && NumbersPresent(h) == {};
    NamesAbsent(h);
    NumbersAbsent(h);
  }

  lemma PartsOfPresent(r: Record)
    ensures HeaderPresent(r.header) <= Present(r) && EventPresent(r) <= Present(r)
    ensures RequestPresent(r) <= Present(r) && EndPresent(r) <= Present(r)
  {
    hide HeaderPresent, EventPresent, RequestPresent, EndPresent;
  }

  /** Values without a key are zero. */
  lemma AbsentIsZero(r: Record, keys: set<Field>)
    requires Present(r) <= keys
    ensures FInput !in keys ==> r.input == ""
    ensures FEvent !in keys ==> r.event == NoEvent
    ensures FAction !in keys ==> r.action == NoAction
    ensures FBasename !in keys ==> r.basename == ""
    ensures FLastRestart !in keys ==> r.lastRestart == 0
    ensures FSince !in keys ==> r.since == None
    ensures FReason !in keys ==> r.reason == NoReason
    ensures FRecords !in keys ==> r.records == 0
    ensures FBytes !in keys ==> r.bytes == 0
  {
    PartsOfPresent(r);
    hide Present, HeaderPresent, RequestPresent;
  }

  lemma RequestAbsentIsZero(r: Record, keys: set<Field>)
    requires Present(r) <= keys
    ensures FMethod !in keys ==> r.requestMethod == NoMethod
    ensures FTrigger !in keys ==> r.trigger == NoTrigger
    ensures FRelated !in keys ==> r.related == 0
    ensures FSent !in keys ==> r.sent == 0
    ensures FResponse !in keys ==> r.response == 0
    ensures FResult !in keys ==> r.result == None
    ensures FCode !in keys ==> r.code == 0
  {
    PartsOfPresent(r);
    hide Present, HeaderPresent, EventPresent, EndPresent;
  }

  lemma NoHeaderKeys(r: Record, keys: set<Field>)
    requires Present(r) <= keys && forall f | f in keys :: !f.FHeader?
    ensures r.header == NO_HEADER
  {
    NamesAreHeaderKeys(r.header);
    NumbersAreHeaderKeys(r.header);
    PartsOfPresent(r);
    hide Present, NamesPresent, NumbersPresent;
    assert NamesPresent(r.header) <= HeaderPresent(r.header) && NumbersPresent(r.header) <= HeaderPresent(r.header);
    assert HeaderPresent(r.header) == {};
    HeaderAbsent(r.header);
  }

  lemma NamesAreHeaderKeys(h: HeaderFields)
    ensures forall f | f in NamesPresent(h) :: f.FHeader?
  {
  }

  lemma NumbersAreHeaderKeys(h: HeaderFields)
    ensures forall f | f in NumbersPresent(h) :: f.FHeader?
  {
  }

  /** The configuration a header speaks of. */
  function ConfigOf(r: Record): Config
    requires r.header.version.Some?
  {
    Config(r.input, r.header.a, r.header.b, r.header.revision, false, r.header.maxBytes, r.header.maxDuration,
           r.header.version.value)
  }

  lemma HeaderKeysAreHeaders()
    ensures forall f | f in HEADER_KEYS :: f.FHeader?
  {
  }

  lemma PlainHeader(r: Record)
    requires Present(r) <= HEADER_KEYS + {FInput}
    ensures r == BLANK.(seqNo := r.seqNo, elapsed := r.elapsed, kind := r.kind, header := r.header, input := r.input)
  {
    hide Present, HEADER_KEYS;
    HeaderKeysAreHeaders();
    AbsentIsZero(r, HEADER_KEYS + {FInput});
    RequestAbsentIsZero(r, HEADER_KEYS + {FInput});
  }

  lemma AcceptedHeader(r: Record, fileSize: int)
    requires Present(r) <= HEADER_KEYS + {FInput} && HeaderOk(r, fileSize)
    ensures r.header.version.Some? && ConfigOk(ConfigOf(r)) && CleanBuild(ConfigOf(r))
    ensures r == Stamped(HeaderRecord(ConfigOf(r)), r.seqNo, r.elapsed) && fileSize <= ConfigOf(r).maxBytes
  {
    hide Present, SafeName, SafeRevision;
    PlainHeader(r);
  }

  /** What an accepted record holds besides what a capture writes. */
  predicate Answered(r: Record) { r.kind.Snapshot? ==> r.code == 100 && 0 <= r.sent <= r.response == r.elapsed }

  lemma PlainRecord(r: Record, keys: set<Field>)
    requires Present(r) <= keys && forall f | f in keys :: !f.FHeader?
    ensures r.header == NO_HEADER
    ensures keys !! {FMethod, FTrigger, FRelated, FSent, FResponse, FResult, FCode} ==>
      && r.requestMethod == NoMethod && r.trigger == NoTrigger && r.result == None
      && r.related == r.sent == r.response == r.code == 0
    ensures FReason !in keys && FRecords !in keys && FBytes !in keys ==>
      r.reason == NoReason && r.records == 0 && r.bytes == 0
    ensures FInput !in keys ==> r.input == ""
    ensures FEvent !in keys ==> r.event == NoEvent
    ensures FAction !in keys ==> r.action == NoAction
    ensures FBasename !in keys ==> r.basename == ""
    ensures FLastRestart !in keys ==> r.lastRestart == 0
    ensures FSince !in keys ==> r.since == None
  {
    NoHeaderKeys(r, keys);
    AbsentIsZero(r, keys);
    RequestAbsentIsZero(r, keys);
    hide Present;
  }

  lemma AcceptedSettings(r: Record, top: Record, cfg: Config)
    requires Present(r) <= {FEvent, FInput, FBasename} && r.kind.SettingsChanged? && BodyOk(r, top) && top.input == cfg.input
    ensures r == Stamped(SettingsRecord(cfg, r.basename), r.seqNo, r.elapsed)
  {
    hide Present, SafeRevision, SafeName;
    PlainRecord(r, {FEvent, FInput, FBasename});
  }

  lemma AcceptedAction(r: Record, top: Record, cfg: Config)
    requires Present(r) <= {FEvent, FInput, FAction, FBasename}
    requires r.kind.MediaAction? && BodyOk(r, top) && top.input == cfg.input
    ensures r == Stamped(ActionRecord(cfg, r.action, r.basename), r.seqNo, r.elapsed)
  {
    hide Present, SafeRevision, SafeName;
    PlainRecord(r, {FEvent, FInput, FAction, FBasename});
  }

  lemma AcceptedEnd(r: Record, top: Record, cfg: Config)
    requires Present(r) <= {FEvent, FInput, FBasename, FLastRestart, FSince}
    requires r.kind.PlaybackEnded? && BodyOk(r, top) && top.input == cfg.input
    ensures r == Stamped(EndedRecord(cfg, r.basename, r.lastRestart, r.since), r.seqNo, r.elapsed)
  {
    hide Present, SafeRevision, SafeName;
    PlainRecord(r, {FEvent, FInput, FBasename, FLastRestart, FSince});
  }

  lemma AcceptedSnapshot(r: Record, top: Record, cfg: Config)
    requires Present(r) <= {FMethod, FInput, FTrigger, FSent, FResponse, FResult, FRelated, FCode, FBasename}
    requires r.kind.Snapshot? && BodyOk(r, top) && top.input == cfg.input
    ensures r == Stamped(SnapshotRecord(cfg, r.trigger, r.related, r.sent, r.response, true, r.code, r.basename),
                         r.seqNo, r.elapsed)
  {
    hide Present, SafeRevision, SafeName;
    PlainRecord(r, {FMethod, FInput, FTrigger, FSent, FResponse, FResult, FRelated, FCode, FBasename});
  }

  lemma AcceptedBody(r: Record, top: Record, cfg: Config)
    requires Present(r) <= Required(r.kind) + Optional(r.kind) && BodyOk(r, top) && !r.kind.Stopped?
    requires ConfigOk(cfg) && top.input == cfg.input && top.header.a == cfg.a && top.header.b == cfg.b
    ensures Captured(r, cfg) && Answered(r)
  {
    AcceptedName(r, top, cfg);
    hide Present, ConfigOk, Watched;
    match r.kind {
      case SettingsChanged => AcceptedSettings(r, top, cfg);
      case MediaAction => AcceptedAction(r, top, cfg);
      case PlaybackEnded => AcceptedEnd(r, top, cfg);
      case Snapshot => AcceptedSnapshot(r, top, cfg);
      case _ =>
    }
  }

  lemma AcceptedName(r: Record, top: Record, cfg: Config)
    requires BodyOk(r, top) && !r.kind.Stopped? && top.header.a == cfg.a && top.header.b == cfg.b
    ensures Watched(cfg, r.basename)
  {
  }

  lemma AcceptedStop(r: Record, top: Record)
    requires Present(r) <= Required(r.kind) + Optional(r.kind) && BodyOk(r, top) && r.kind.Stopped?
    ensures r == Stamped(StoppedRecord(r.reason, r.records, r.bytes), r.seqNo, r.elapsed)
    ensures r.reason == Signal || r.reason == Completed
  {
    hide Present, SafeRevision, SafeName;
    PlainRecord(r, {FReason, FRecords, FBytes});
  }

  /**
   Whatever the verifier accepts has the form of a capture: its header is the one of an acceptable
   configuration and a clean build, every other record but the last is one that configuration writes, with
   every snapshot answered successfully and in time, and the last one counts the rest.
   */
  lemma AcceptedIsCaptured(lines: seq<Line>) returns (cfg: Config)
    requires ValidTrace(lines) && forall i | 0 <= i < |lines| :: KeysCover(lines[i])
    ensures forall i | 0 <= i < |lines| :: lines[i].Decoded?
    ensures ConfigOk(cfg) && CleanBuild(cfg) && Size(lines) <= cfg.maxBytes
    ensures lines[0].record == Stamped(HeaderRecord(cfg), 1, lines[0].record.elapsed)
    ensures forall i | 0 < i < |lines| - 1 :: Captured(lines[i].record, cfg) && Answered(lines[i].record)
    ensures var n, last := |lines| - 1, lines[|lines| - 1].record;
      && (last.reason == Signal || last.reason == Completed)
      && last == Stamped(StoppedRecord(last.reason, n, Size(lines[..n])), n + 1, last.elapsed)
  {
    var n := |lines| - 1;
    hide Present, HeaderOk, BodyOk, Captured, HeaderRecord, StoppedRecord, Size;
    assert LineOk(lines, 0, Size(lines)) && LineOk(lines, n, Size(lines)) && KeysCover(lines[0]) && KeysCover(lines[n]);
    var top := lines[0].record;
    HeaderMayHave(top, lines[0].fields, Size(lines));
    AcceptedHeader(top, Size(lines));
    cfg := ConfigOf(top);
    AcceptedStop(lines[n].record, top);
    forall i | 0 <= i < |lines|
      ensures lines[i].Decoded?
      ensures 0 < i < n ==> Captured(lines[i].record, cfg) && Answered(lines[i].record)
    {
      assert LineOk(lines, i, Size(lines)) && KeysCover(lines[i]);
      if 0 < i < n { AcceptedBody(lines[i].record, top, cfg); }
    }
  }

  lemma HeaderMayHave(r: Record, fields: set<Field>, fileSize: int)
    requires FieldsAllowed(r.kind, fields) && HeaderOk(r, fileSize)
    ensures r.kind.Header? && fields <= HEADER_KEYS + {FInput}
  {
    hide HEADER_KEYS, SafeName, SafeRevision;
  }
}
