/**
 The supervisor wire format: one line of text holding the frame number and, for
 each mandatory worker, its sequence and a two-digit phase code.
 */
module Frames {
  import opened Results
  import opened Liveness
  import opened Workers

  const MAX_FRAME_BYTES: nat := 192
  const MAX_FRAME_NUMBER: nat := 0xFFFF_FFFF_FFFF_FFFF
  const PREFIX: string := "TGOBS1 "
  const KEYS: string := "tremp"

  datatype FrameError = InvalidFrame | FrameTooLarge | FrameWrite | Exhausted

  // ---- Decimal numbers ----

  function Digit(d: nat): char
    requires d < 10
  {
    ('0' as int + d) as char
  }

  predicate IsDigit(ch: char) { '0' <= ch <= '9' }

  function Decimal(n: nat): string {
    if n < 10 then [Digit(n)] else Decimal(n / 10) + [Digit(n % 10)]
  }

  function PowerOfTen(k: nat): nat { if k == 0 then 1 else 10 * PowerOfTen(k - 1) }

  lemma {:induction false} DecimalLength(n: nat, k: nat)
    requires 0 < k && n < PowerOfTen(k)
    ensures 1 <= |Decimal(n)| <= k
    decreases k
  {
    if 10 <= n {
      assert 1 < k;
      DecimalLength(n / 10, k - 1);
    }
  }

  lemma {:induction false} DecimalIsDigits(n: nat)
    ensures forall i | 0 <= i < |Decimal(n)| :: IsDigit(Decimal(n)[i])
  {
    if 10 <= n { DecimalIsDigits(n / 10); }
  }

  function DigitsBefore(text: string): (k: nat)
    ensures k <= |text|
  {
    if text == "" || !IsDigit(text[0]) then 0 else 1 + DigitsBefore(text[1..])
  }

  function Value(digits: string): nat
    requires forall i | 0 <= i < |digits| :: IsDigit(digits[i])
    decreases |digits|
  {
    if digits == "" then 0
    else
      var last := digits[|digits| - 1];
      assert IsDigit(last);
      10 * Value(digits[..|digits| - 1]) + (last as int - '0' as int)
  }

  lemma {:induction false} ValueOfDecimal(n: nat)
    ensures forall i | 0 <= i < |Decimal(n)| :: IsDigit(Decimal(n)[i])
    ensures Value(Decimal(n)) == n
  {
    DecimalIsDigits(n);
    if 10 <= n {
      ValueOfDecimal(n / 10);
      assert Decimal(n)[..|Decimal(n)| - 1] == Decimal(n / 10);
    }
  }

  lemma {:induction false} DigitsEnd(digits: string, rest: string)
    requires forall i | 0 <= i < |digits| :: IsDigit(digits[i])
    requires rest != "" && !IsDigit(rest[0])
    ensures DigitsBefore(digits + rest) == |digits|
  {
    if digits == "" {
      assert digits + rest == rest;
    } else {
      assert (digits + rest)[1..] == digits[1..] + rest;
      DigitsEnd(digits[1..], rest);
    }
  }

  lemma {:induction false} DigitsAreDigits(text: string)
    ensures forall i | 0 <= i < DigitsBefore(text) :: IsDigit(text[i])
  {
    if text != "" && IsDigit(text[0]) {
      DigitsAreDigits(text[1..]);
      forall i | 0 <= i < DigitsBefore(text) ensures IsDigit(text[i]) {
        if 0 < i { assert text[i] == text[1..][i - 1]; }
      }
    }
  }

  datatype Number = Number(value: nat, rest: string)

  /** Reads the number a text begins with. */
  function ReadNumber(text: string): Number {
    DigitsAreDigits(text);
    Number(Value(text[..DigitsBefore(text)]), text[DigitsBefore(text)..])
  }

  lemma ReadsBack(n: nat, rest: string)
    requires rest != "" && !IsDigit(rest[0])
    ensures ReadNumber(Decimal(n) + rest) == Number(n, rest)
  {
    ValueOfDecimal(n);
    DigitsEnd(Decimal(n), rest);
    assert (Decimal(n) + rest)[..|Decimal(n)|] == Decimal(n);
  }

  // ---- Frames ----

  predicate KnownPhase(p: Phase) { p <= LIBRARY_SCAN }

  function PhaseCode(p: Phase): string { [Digit(p / 10 % 10), Digit(p % 10)] }

  predicate Encodable(s: Snapshot, position: nat) {
    position < |REQUIRED| && s.id == REQUIRED[position] && s.owner == OwnerOf(s.id) && KnownPhase(s.phase)
  }

  function Entry(s: Snapshot, position: nat): string
    requires position < |REQUIRED|
  {
    [' ', KEYS[position], '='] + (Decimal(s.sequence) + ([','] + PhaseCode(s.phase)))
  }

  function Entries(snapshots: seq<Snapshot>, position: nat): string
    requires position + |snapshots| <= |REQUIRED|
  {
    if snapshots == [] then "\n" else Entry(snapshots[0], position) + Entries(snapshots[1..], position + 1)
  }

  function Line(frame: nat, snapshots: seq<Snapshot>): string
    requires |snapshots| == |REQUIRED|
  {
    PREFIX + (Decimal(frame) + Entries(snapshots, 0))
  }

  /** One complete line, or nothing for an unexpected worker, owner or phase, or an overlong line. */
  method EncodeFrame(frame: nat, snapshots: seq<Snapshot>) returns (encoded: Result<string, FrameError>)
    requires |snapshots| == |REQUIRED|
    ensures encoded == Err(InvalidFrame) <==>
      frame == 0 || exists i :: 0 <= i < |snapshots| && !Encodable(snapshots[i], i)
    ensures encoded == Err(FrameTooLarge) ==> MAX_FRAME_BYTES < |Line(frame, snapshots)|
    ensures encoded.Ok? ==> encoded.value == Line(frame, snapshots) && |encoded.value| <= MAX_FRAME_BYTES
    ensures encoded.Err? ==> encoded.error == InvalidFrame || encoded.error == FrameTooLarge
  {
    hide Decimal, Entry, Entries;
    if frame == 0 { return Err(InvalidFrame); }
    var line := PREFIX + Decimal(frame);
    assert Line(frame, snapshots) == line + Entries(snapshots[0..], 0) by { assert snapshots[0..] == snapshots; }
    for i := 0 to |REQUIRED|
      invariant forall k | 0 <= k < i :: Encodable(snapshots[k], k)
      invariant line + Entries(snapshots[i..], i) == Line(frame, snapshots)
    {
      var s := snapshots[i];
      if s.id != REQUIRED[i] || s.owner != OwnerOf(s.id) { return Err(InvalidFrame); }
      if !KnownPhase(s.phase) { return Err(InvalidFrame); }
      EntriesUnfold(line, snapshots, i);
      line := AppendEntry(line, s, i);
    }
    EntriesEnd(line, snapshots);
    line := line + "\n";
    if MAX_FRAME_BYTES < |line| { return Err(FrameTooLarge); }
    encoded := Ok(line);
  }

  method AppendEntry(line: string, s: Snapshot, position: nat) returns (longer: string)
    requires position < |REQUIRED|
    ensures longer == line + Entry(s, position)
  {
    longer := line + [' ', KEYS[position], '='];
    longer := longer + Decimal(s.sequence);
    longer := longer + [','] + PhaseCode(s.phase);
  }

  lemma EntriesUnfold(line: string, snapshots: seq<Snapshot>, i: nat)
    requires |snapshots| == |REQUIRED| && i < |snapshots|
    ensures line + Entries(snapshots[i..], i) == (line + Entry(snapshots[i], i)) + Entries(snapshots[i + 1..], i + 1)
  {
    hide Entry;
    assert snapshots[i..][1..] == snapshots[i + 1..];
  }

  lemma EntriesEnd(line: string, snapshots: seq<Snapshot>)
    requires |snapshots| == |REQUIRED|
    ensures line + Entries(snapshots[|REQUIRED|..], |REQUIRED|) == line + "\n"
  {
  }

  /** The line, letter by letter: the workers under their keys, each with its sequence and two digits of phase. */
  lemma FrameLayout(frame: nat, s: seq<Snapshot>)
    requires |s| == |REQUIRED| && forall i | 0 <= i < |s| :: s[i].phase < 100
    ensures Line(frame, s) == "TGOBS1 " + Decimal(frame) + Shown('t', s[0]) + Shown('r', s[1]) + Shown('e', s[2])
                              + Shown('m', s[3]) + Shown('p', s[4]) + "\n"
  {
    EntryIsShown(s[0], 0, 't');
    EntryIsShown(s[1], 1, 'r');
    EntryIsShown(s[2], 2, 'e');
    EntryIsShown(s[3], 3, 'm');
    EntryIsShown(s[4], 4, 'p');
    hide Decimal, Entry, Shown;
    var line := PREFIX + Decimal(frame);
    assert s[0..] == s;
    assert Line(frame, s) == line + Entries(s[0..], 0);
    EntriesUnfold(line, s, 0);
    EntriesUnfold(line + Shown('t', s[0]), s, 1);
    EntriesUnfold(line + Shown('t', s[0]) + Shown('r', s[1]), s, 2);
    EntriesUnfold(line + Shown('t', s[0]) + Shown('r', s[1]) + Shown('e', s[2]), s, 3);
    EntriesUnfold(line + Shown('t', s[0]) + Shown('r', s[1]) + Shown('e', s[2]) + Shown('m', s[3]), s, 4);
    hide Entries;
    EntriesEnd(line + Shown('t', s[0]) + Shown('r', s[1]) + Shown('e', s[2]) + Shown('m', s[3]) + Shown('p', s[4]), s);
  }

  function Shown(key: char, s: Snapshot): string {
    " " + [key] + "=" + Decimal(s.sequence) + "," + TwoDigits(s.phase)
  }

  /** Two decimal digits, with a leading zero below ten. */
  function TwoDigits(n: nat): string { if n < 10 then "0" + Decimal(n) else Decimal(n) }

  lemma EntryIsShown(s: Snapshot, position: nat, key: char)
    requires position < |REQUIRED| && KEYS[position] == key && s.phase < 100
    ensures Entry(s, position) == Shown(key, s)
  {
    PhaseHasTwoDigits(s.phase);
    hide Decimal, PhaseCode, TwoDigits;
  }

  lemma PhaseHasTwoDigits(p: Phase)
    requires p < 100
    ensures PhaseCode(p) == TwoDigits(p)
  {
    if 10 <= p { assert Decimal(p) == Decimal(p / 10) + [Digit(p % 10)] && Decimal(p / 10) == [Digit(p / 10)]; }
  }

  // ---- Every frame fits ----

  lemma Powers()
    ensures PowerOfTen(17) == 100_000_000_000_000_000
    ensures PowerOfTen(20) == 100_000_000_000_000_000_000
  {
    assert PowerOfTen(4) == 10_000;
    assert PowerOfTen(8) == 100_000_000;
    assert PowerOfTen(12) == 1_000_000_000_000;
    assert PowerOfTen(16) == 10_000_000_000_000_000;
  }

  lemma {:induction false} EntriesLength(snapshots: seq<Snapshot>, position: nat)
    requires position + |snapshots| <= |REQUIRED|
    requires forall s | s in snapshots :: s.sequence <= MAX_SEQUENCE
    ensures |Entries(snapshots, position)| <= 23 * |snapshots| + 1
  {
    if snapshots != [] {
      Powers();
      DecimalLength(snapshots[0].sequence, 17);
      EntriesLength(snapshots[1..], position + 1);
    }
  }

  /** What the tracked workers can publish always fits: a frame is at most 143 bytes long. */
  lemma FramesFit(frame: nat, snapshots: seq<Snapshot>)
    requires |snapshots| == |REQUIRED| && frame <= MAX_FRAME_NUMBER
    requires forall s | s in snapshots :: s.sequence <= MAX_SEQUENCE
    ensures |Line(frame, snapshots)| <= 143 < MAX_FRAME_BYTES
  {
    Powers();
    DecimalLength(frame, 20);
    EntriesLength(snapshots, 0);
  }

  // ---- Reading a frame back ----

  datatype Reading = Reading(sequence: nat, code: string)

  function ReadingOf(s: Snapshot): Reading { Reading(s.sequence, PhaseCode(s.phase)) }

  function Readings(snapshots: seq<Snapshot>): seq<Reading> {
    if snapshots == [] then [] else [ReadingOf(snapshots[0])] + Readings(snapshots[1..])
  }

  function DecodeEntries(text: string, position: nat): Option<seq<Reading>>
    requires position <= |REQUIRED|
    decreases |REQUIRED| - position
  {
    if position == |REQUIRED| then if text == "\n" then Some([]) else None
    else if |text| < 3 || text[..3] != [' ', KEYS[position], '='] then None
    else
      var number := ReadNumber(text[3..]);
      if |number.rest| < 3 || number.rest[0] != ',' then None
      else
        var others := DecodeEntries(number.rest[3..], position + 1);
        if others.None? then None else Some([Reading(number.value, number.rest[1..3])] + others.value)
  }

  datatype Frame = Frame(number: nat, readings: seq<Reading>)

  function DecodeFrame(text: string): Option<Frame> {
    if |text| < |PREFIX| || text[..|PREFIX|] != PREFIX then None
    else
      var number := ReadNumber(text[|PREFIX|..]);
      var readings := DecodeEntries(number.rest, 0);
      if readings.None? then None else Some(Frame(number.value, readings.value))
  }

  lemma {:induction false} EntriesReadBack(snapshots: seq<Snapshot>, position: nat)
    requires position + |snapshots| == |REQUIRED|
    ensures DecodeEntries(Entries(snapshots, position), position) == Some(Readings(snapshots))
    decreases |snapshots|
  {
    if snapshots != [] {
      var s, others := snapshots[0], Entries(snapshots[1..], position + 1);
      var text := Entries(snapshots, position);
      var rest := [','] + PhaseCode(s.phase) + others;
      assert text == [' ', KEYS[position], '='] + (Decimal(s.sequence) + rest);
      assert text[..3] == [' ', KEYS[position], '='] && text[3..] == Decimal(s.sequence) + rest;
      ReadsBack(s.sequence, rest);
      assert rest[1..3] == PhaseCode(s.phase) && rest[3..] == others;
      EntriesReadBack(snapshots[1..], position + 1);
    }
  }

  lemma EntriesStartPlain(snapshots: seq<Snapshot>, position: nat)
    requires position + |snapshots| <= |REQUIRED|
    ensures Entries(snapshots, position) != "" && !IsDigit(Entries(snapshots, position)[0])
  {
  }

  /** Decoding a frame gives back its number and, worker by worker, the sequence and phase code. */
  lemma {:induction false} FrameReadsBack(frame: nat, snapshots: seq<Snapshot>)
    requires |snapshots| == |REQUIRED|
    ensures DecodeFrame(Line(frame, snapshots)) == Some(Frame(frame, Readings(snapshots)))
  {
    hide Decimal, ReadNumber, Entries, DecodeEntries, Readings;
    var body := Entries(snapshots, 0);
    var text := Line(frame, snapshots);
    assert text[..|PREFIX|] == PREFIX && text[|PREFIX|..] == Decimal(frame) + body;
    EntriesStartPlain(snapshots, 0);
    ReadsBack(frame, body);
    EntriesReadBack(snapshots, 0);
  }

  lemma {:induction false} ReadingsTellApart(a: seq<Snapshot>, b: seq<Snapshot>, position: nat)
    requires |a| == |b| && Readings(a) == Readings(b)
    requires forall i | 0 <= i < |a| :: Encodable(a[i], position + i) && Encodable(b[i], position + i)
    ensures a == b
  {
    if a != [] {
      assert Encodable(a[0], position + 0) && Encodable(b[0], position + 0);
      assert ReadingOf(a[0]) == ReadingOf(b[0]) by { assert Readings(a)[0] == Readings(b)[0]; }
      CodesTellApart(a[0].phase, b[0].phase);
      assert Readings(a)[1..] == Readings(a[1..]) && Readings(b)[1..] == Readings(b[1..]);
      forall i | 0 <= i < |a[1..]| ensures Encodable(a[1..][i], position + 1 + i) && Encodable(b[1..][i], position + 1 + i) {
        assert Encodable(a[i + 1], position + (i + 1)) && Encodable(b[i + 1], position + (i + 1));
      }
      ReadingsTellApart(a[1..], b[1..], position + 1);
      assert a == [a[0]] + a[1..] && b == [b[0]] + b[1..];
    }
  }

  lemma CodesTellApart(p: Phase, q: Phase)
    requires KnownPhase(p) && KnownPhase(q) && PhaseCode(p) == PhaseCode(q)
    ensures p == q
  {
    assert PhaseCode(p)[0] == PhaseCode(q)[0] && PhaseCode(p)[1] == PhaseCode(q)[1];
    assert p == 10 * (p / 10 % 10) + p % 10 && q == 10 * (q / 10 % 10) + q % 10;
  }

  /** No two different observations share a line. */
  lemma EncodingIsInjective(f: nat, a: seq<Snapshot>, g: nat, b: seq<Snapshot>)
    requires |a| == |REQUIRED| && forall i | 0 <= i < |a| :: Encodable(a[i], i)
    requires |b| == |REQUIRED| && forall i | 0 <= i < |b| :: Encodable(b[i], i)
    ensures Line(f, a) == Line(g, b) <==> f == g && a == b
  {
    hide Line, DecodeFrame, Readings, Encodable;
    if Line(f, a) == Line(g, b) {
      FrameReadsBack(f, a);
      FrameReadsBack(g, b);
      assert Readings(a) == Readings(b);
      forall i | 0 <= i < |a| ensures Encodable(a[i], 0 + i) && Encodable(b[i], 0 + i) {
        assert Encodable(a[i], i) && Encodable(b[i], i);
      }
      ReadingsTellApart(a, b, 0);
    }
  }

  // ---- The reporter ----

  /** Numbers frames and writes them to a pipe that may be full or broken. */
  class Reporter {
    const registry: Registry
    var frame: nat
    var drops: nat

    constructor (registry: Registry)
      ensures this.registry == registry && frame == 0 && drops == 0
    {
      this.registry, frame, drops := registry, 0, 0;
    }

    /** Whatever the workers did, their frame is encoded without error exactly if every slot is bound. */
    method Encode(number: nat) returns (encoded: Result<string, FrameError>)
      requires registry.Valid() && 0 < number <= MAX_FRAME_NUMBER
      ensures encoded.Ok? <==> forall id :: id in registry.workers
      ensures encoded.Err? ==> encoded.error == InvalidFrame
      ensures encoded.Ok? ==>
        && |encoded.value| <= MAX_FRAME_BYTES
        && DecodeFrame(encoded.value) == Some(Frame(number, Readings(registry.Observed())))
    {
      hide Line, DecodeFrame, Readings, WorkerState.Valid;
      var snapshots := registry.Snapshots();
      BoundMeansEncodable(registry, snapshots);
      FramesFit(number, snapshots);
      FrameReadsBack(number, snapshots);
      encoded := EncodeFrame(number, snapshots);
    }

    /** One report: the next frame tells what the workers show, and a full pipe only drops it. */
    method Report() returns (line: string, err: Option<FrameError>)
      requires registry.Valid() && frame <= MAX_FRAME_NUMBER
      modifies this
      ensures err == Some(Exhausted) <==> old(frame) == MAX_FRAME_NUMBER
      ensures err == Some(InvalidFrame) <==> old(frame) < MAX_FRAME_NUMBER && exists id :: id !in registry.workers
      ensures err.Some? ==> err.value == Exhausted || err.value == InvalidFrame || err.value == FrameWrite
      ensures frame == if old(frame) == MAX_FRAME_NUMBER then old(frame) else old(frame) + 1
      ensures err.None? || err.value == FrameWrite ==>
        && |line| <= MAX_FRAME_BYTES && DecodeFrame(line) == Some(Frame(frame, Readings(registry.Observed())))
      ensures err.None? ==> drops == 0 || drops == old(drops) + 1
      ensures err.Some? ==> drops == old(drops)
    {
      hide DecodeFrame, Readings, Registry.Valid, Registry.Observed;
      if frame == MAX_FRAME_NUMBER { return "", Some(Exhausted); }
      frame := frame + 1;
      var encoded := Encode(frame);
      if encoded.Err? { return "", Some(encoded.error); }
      line := encoded.value;
      var written: bool, delivered: bool := *, *;
      if !written { return line, Some(FrameWrite); }
      drops := if delivered then 0 else drops + 1;
      err := None;
    }
  }

  lemma BoundMeansEncodable(registry: Registry, snapshots: seq<Snapshot>)
    requires |snapshots| == |REQUIRED|
    requires forall i | 0 <= i < |snapshots| ::
      && snapshots[i].id == REQUIRED[i] && (snapshots[i].owner == OwnerOf(REQUIRED[i]) <==> REQUIRED[i] in registry.workers)
      && snapshots[i].phase <= LIBRARY_SCAN
    ensures (forall i | 0 <= i < |snapshots| :: Encodable(snapshots[i], i)) <==> forall id :: id in registry.workers
  {
    if forall i | 0 <= i < |snapshots| :: Encodable(snapshots[i], i) {
      forall id: WorkerID ensures id in registry.workers {
        AllRequired(id);
        var i :| 0 <= i < |REQUIRED| && REQUIRED[i] == id;
        assert Encodable(snapshots[i], i);
      }
    }
  }
}
