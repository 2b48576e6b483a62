/**
 The OBS evidence trace: the flat record every line holds, which of its fields
 reach the encoded line, and the rules an acceptable trace obeys.
 */
module Evidence {
  import opened Results

  const SECOND: int := 1_000_000_000
  const MINUTE: int := 60 * SECOND
  const CORRELATION_WINDOW: int := 2 * SECOND
  const MIN_TRACE_BYTES: int := 64 * 1024
  const MAX_TRACE_BYTES: int := 4 * 1024 * 1024
  const MIN_DURATION: int := MINUTE
  const MAX_DURATION: int := 60 * MINUTE
  const MAX_FRAME_BYTES: int := 1024 * 1024
  const MAX_LINE_BYTES: int := 16 * 1024
  const EVENT_SUBSCRIPTIONS: int := 8 + 256
  const SUCCESS_CODE: int := 100

  const SCHEMA: string := "tg-obs-stale-evidence/v1"
  const TOOL: string := "obs-stale-monitor"
  const OTHER: string := "other"
  const UNKNOWN: string := "unknown"

  datatype Kind =
    | Header | SettingsChanged | MediaAction | Snapshot | PlaybackEnded | IntegrityFailure | Stopped | UnknownKind

  datatype EventName = NoEvent | InputSettingsChanged | MediaInputActionTriggered | MediaInputPlaybackEnded | OtherEvent

  datatype Action = NoAction | Restart | StopAction | OtherAction | BadAction

  datatype Trigger =
    | NoTrigger | Initial | OnSettingsChanged | OnRestart | EndedImmediate | EndedSettle | BadTrigger

  datatype Reason = NoReason | Signal | Completed | Failure | OtherReason

  datatype Method = NoMethod | GetInputSettings | OtherMethod

  /** A parsed version; only its numbers matter. */
  datatype Version = Version(major: nat, minor: nat, patch: nat) {
    predicate Supported() {
      major <= 999 && minor <= 999 && patch <= 999 && (6 <= major || (major == 5 && 4 <= minor))
    }
  }

  datatype HeaderFields = HeaderFields(
    schema: string, tool: string, revision: string, modified: Option<bool>,
    a: string, b: string, version: Option<Version>, rpcVersion: int, subscriptions: int,
    window: int, maxBytes: int, maxFrameBytes: int, maxDuration: int)

  const NO_HEADER := HeaderFields("", "", "", None, "", "", None, 0, 0, 0, 0, 0, 0)

  datatype Record = Record(
    seqNo: nat, elapsed: int, kind: Kind, header: HeaderFields,
    input: string, event: EventName, action: Action, requestMethod: Method, basename: string,
    trigger: Trigger, related: nat, sent: int, response: int, result: Option<bool>, code: int,
    lastRestart: nat, since: Option<int>, reason: Reason, records: nat, bytes: int)

  const BLANK := Record(
    0, 0, UnknownKind, NO_HEADER, "", NoEvent, NoAction, NoMethod, "", NoTrigger, 0, 0, 0, None, 0, 0, None, NoReason, 0, 0)

  /** The JSON keys of a line, apart from the four that are always written. */
  datatype Field =
    | FHeader(name: string) | FInput | FEvent | FAction | FMethod | FBasename | FTrigger | FRelated | FSent
    | FResponse | FResult | FCode | FLastRestart | FSince | FReason | FRecords | FBytes

  const HEADER_KEYS: set<Field> := {
    FHeader("schema"), FHeader("tool"), FHeader("revision"), FHeader("modified"), FHeader("a_basename"),
    FHeader("b_basename"), FHeader("obs_websocket_version"), FHeader("rpc_version"), FHeader("subscriptions"),
    FHeader("correlation_window_ns"), FHeader("max_bytes"), FHeader("max_frame_bytes"), FHeader("max_duration_ns")}

  function When(present: bool, f: Field): set<Field> { if present then {f} else {} }

  function NamesPresent(h: HeaderFields): set<Field> {
    When(h.schema != "", FHeader("schema")) + When(h.tool != "", FHeader("tool"))
    + When(h.revision != "", FHeader("revision")) + When(h.modified.Some?, FHeader("modified"))
    + When(h.a != "", FHeader("a_basename")) + When(h.b != "", FHeader("b_basename"))
    + When(h.version.Some?, FHeader("obs_websocket_version"))
  }

  function NumbersPresent(h: HeaderFields): set<Field> {
    When(h.rpcVersion != 0, FHeader("rpc_version")) + When(h.subscriptions != 0, FHeader("subscriptions"))
    + When(h.window != 0, FHeader("correlation_window_ns")) + When(h.maxBytes != 0, FHeader("max_bytes"))
    + When(h.maxFrameBytes != 0, FHeader("max_frame_bytes")) + When(h.maxDuration != 0, FHeader("max_duration_ns"))
  }

  function HeaderPresent(h: HeaderFields): set<Field> { NamesPresent(h) + NumbersPresent(h) }

  function EventPresent(r: Record): set<Field> {
    When(r.input != "", FInput) + When(r.event != NoEvent, FEvent) + When(r.action != NoAction, FAction)
    + When(r.basename != "", FBasename) + When(r.lastRestart != 0, FLastRestart) + When(r.since.Some?, FSince)
  }

  function RequestPresent(r: Record): set<Field> {
    When(r.requestMethod != NoMethod, FMethod) + When(r.trigger != NoTrigger, FTrigger)
    + When(r.related != 0, FRelated) + When(r.sent != 0, FSent) + When(r.response != 0, FResponse)
    + When(r.result.Some?, FResult) + When(r.code != 0, FCode)
  }

  function EndPresent(r: Record): set<Field> {
    When(r.reason != NoReason, FReason) + When(r.records != 0, FRecords) + When(r.bytes != 0, FBytes)
  }

  /** A zero value is omitted from the encoded line; an optional value that is present is written even when it is zero. */
  function Present(r: Record): set<Field> {
    HeaderPresent(r.header) + EventPresent(r) + RequestPresent(r) + EndPresent(r)
  }

  function Required(kind: Kind): set<Field> {
    match kind
    case Header => HEADER_KEYS + {FInput}
    case SettingsChanged => {FEvent, FInput, FBasename}
    case MediaAction => {FEvent, FInput, FAction, FBasename}
    case Snapshot => {FMethod, FInput, FTrigger, FSent, FResponse, FResult}
    case PlaybackEnded => {FEvent, FInput, FBasename}
    case IntegrityFailure => {FReason}
    case Stopped => {FReason, FRecords, FBytes}
    case UnknownKind => {}
  }

  function Optional(kind: Kind): set<Field> {
    match kind
    case Snapshot => {FRelated, FCode, FBasename}
    case PlaybackEnded => {FLastRestart, FSince}
    case _ => {}
  }

  predicate FieldsAllowed(kind: Kind, fields: set<Field>) {
    !kind.UnknownKind? && Required(kind) <= fields <= Required(kind) + Optional(kind)
  }

  // ---- Names ----

  predicate SafeChar(ch: char) {
    'a' <= ch <= 'z' || 'A' <= ch <= 'Z' || '0' <= ch <= '9' || ch == '_' || ch == '-' || ch == '.'
  }

  predicate SafeName(name: string) {
    0 < |name| <= 128 && forall i | 0 <= i < |name| :: SafeChar(name[i])
  }

  predicate ValidBasename(name: string) { SafeName(name) && name != "." && name != ".." }

  predicate HexDigit(ch: char) { '0' <= ch <= '9' || 'a' <= ch <= 'f' }

  function SafeRevision(value: string): string {
    if (|value| == 40 || |value| == 64) && (forall i | 0 <= i < |value| :: HexDigit(value[i])) then value else UNKNOWN
  }

  predicate Mapped(h: HeaderFields, basename: string) { basename == h.a || basename == h.b || basename == OTHER }

  // ---- Lines ----

  /** One line of the file: either it decodes to a record with these keys, or it does not. */
  datatype Line =
    | Decoded(size: nat, record: Record, fields: set<Field>)
    | Malformed(size: nat)

  function Size(lines: seq<Line>): nat {
    if lines == [] then 0 else Size(lines[..|lines| - 1]) + lines[|lines| - 1].size + 1
  }

  // ---- The rules ----

  predicate HeaderOk(r: Record, fileSize: int) {
    var h := r.header;
    && r.kind.Header? && h.schema == SCHEMA && h.tool == TOOL
    && h.modified == Some(false) && h.revision != UNKNOWN && SafeRevision(h.revision) == h.revision
    && SafeName(r.input) && ValidBasename(h.a) && ValidBasename(h.b) && h.a != h.b
    && h.version.Some? && h.version.value.Supported() && h.rpcVersion == 1
    && h.subscriptions == EVENT_SUBSCRIPTIONS && h.window == CORRELATION_WINDOW
    && fileSize <= h.maxBytes && MIN_TRACE_BYTES <= h.maxBytes <= MAX_TRACE_BYTES
    && h.maxFrameBytes == MAX_FRAME_BYTES && MIN_DURATION <= h.maxDuration <= MAX_DURATION
  }

  predicate BodyOk(r: Record, top: Record) {
    match r.kind
    case SettingsChanged =>
      r.event.InputSettingsChanged? && r.input == top.input && Mapped(top.header, r.basename)
    case MediaAction =>
      && r.event.MediaInputActionTriggered? && r.input == top.input && Mapped(top.header, r.basename)
      && (r.action.Restart? || r.action.StopAction? || r.action.OtherAction?)
    case Snapshot =>
      && r.requestMethod.GetInputSettings? && r.input == top.input
      && 0 <= r.sent <= r.response && r.response == r.elapsed
      && !r.trigger.NoTrigger? && !r.trigger.BadTrigger?
      && (if r.trigger.Initial? then r.related == 0 else 0 < r.related < r.seqNo)
      && r.result == Some(true) && r.code == SUCCESS_CODE && Mapped(top.header, r.basename)
    case PlaybackEnded =>
      && r.event.MediaInputPlaybackEnded? && r.input == top.input && Mapped(top.header, r.basename)
      && r.lastRestart < r.seqNo
      && (if r.lastRestart == 0 then r.since.None? else r.since.Some? && 0 <= r.since.value)
    case Stopped => r.reason.Signal? || r.reason.Completed?
    case _ => false
  }

  predicate IsRestart(r: Record) { r.kind.MediaAction? && r.action.Restart? }

  /** What the verifier demands of line `i`, given the lines before it. */
  predicate LineOk(lines: seq<Line>, i: nat, fileSize: int)
    requires i < |lines|
  {
    var line := lines[i];
    && line.Decoded? && 0 < line.size <= MAX_LINE_BYTES
    && var r := line.record;
    && r.seqNo == i + 1
    && 0 <= r.elapsed
    && (0 < i && lines[i - 1].Decoded? ==> lines[i - 1].record.elapsed <= r.elapsed)
    && FieldsAllowed(r.kind, line.fields)
    && (i == 0 ==> HeaderOk(r, fileSize))
    && (0 < i && lines[0].Decoded? ==> BodyOk(r, lines[0].record))
    && (r.kind.PlaybackEnded? && RestartSeen(lines[..i]) ==> r.lastRestart != 0)
    && (r.kind.Stopped? ==> i == |lines| - 1 && r.records == i && r.bytes == Size(lines[..i]))
  }

  predicate RestartSeen(lines: seq<Line>) {
    exists j :: 0 <= j < |lines| && lines[j].Decoded? && IsRestart(lines[j].record)
  }

  /** The whole file is acceptable as evidence. */
  predicate ValidTrace(lines: seq<Line>) {
    && 2 <= |lines|
    && (forall i | 0 <= i < |lines| :: LineOk(lines, i, Size(lines)))
    && lines[|lines| - 1].Decoded? && lines[|lines| - 1].record.kind.Stopped?
  }

  function Records(lines: seq<Line>): seq<Record>
    requires forall i | 0 <= i < |lines| :: lines[i].Decoded?
  {
    seq(|lines|, i requires 0 <= i < |lines| => lines[i].record)
  }
}
