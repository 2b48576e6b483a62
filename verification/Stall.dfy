/**
 The media stall detector: what it remembers of one OBS input between observations,
 and what its answers mean in terms of everything observed so far.
 */
module Stall {
  import opened Results

  const MINUTE: int := 60_000_000_000
  const GRACE: int := 2 * MINUTE
  const HARD_GRACE: int := 2 * GRACE
  const EPSILON: real := 1.0

  datatype MediaState = Unset | Playing | Opening | Buffering | OtherState(name: string)

  /** One observation; times are nanoseconds, cursors milliseconds. */
  datatype Sighting = Sighting(at: int, state: MediaState, cursor: Option<real>)

  datatype Progress = Progress(
    path: string, last: Sighting, generation: Option<int>, progressAt: int, definitiveAt: int)

  function Distance(a: real, b: real): real { if a < b then b - a else a - b }

  /** A cursor showed up, or moved by at least the epsilon. */
  predicate Definitive(prev: Sighting, cur: Sighting) {
    cur.cursor.Some? && (prev.cursor.None? || EPSILON <= Distance(cur.cursor.value, prev.cursor.value))
  }

  /** Anything at all changed, small cursor movements apart. */
  predicate Differs(prev: Sighting, cur: Sighting) {
    prev.state != cur.state || prev.cursor.Some? != cur.cursor.Some? || Definitive(prev, cur)
  }

  class Detector {
    /** What is remembered of each input. */
    var progress: map<string, Progress>

    constructor ()
      ensures progress == map[]
    {
      progress := map[];
    }

    /** Records an observation and answers whether the input looks stalled. */
    method MediaInputStalled(input: string, path: string, cur: Sighting) returns (stalled: bool)
      modifies this
      ensures progress == old(progress)[input := Observed(Lookup(old(progress), input), path, cur)]
      ensures stalled == StalledNow(progress[input])
    {
      var known := input in progress;
      var reset := true;
      var moved, definitive := true, true;
      var progressAt, definitiveAt := cur.at, cur.at;
      var generation: Option<int> := None;
      if known {
        var previous := progress[input];
        reset := previous.path != path || cur.at < previous.progressAt;
        moved := reset || previous.last.state != cur.state;
        definitive := reset || cur.at < previous.definitiveAt;
        if previous.last.cursor.Some? != cur.cursor.Some? {
          moved := true;
          if cur.cursor.Some? { definitive := true; }
        }
        if previous.last.cursor.Some? && cur.cursor.Some? {
          var delta := cur.cursor.value - previous.last.cursor.value;
          if delta < 0.0 { delta := -delta; }
          if EPSILON <= delta { moved, definitive := true, true; }
        }
        if !moved { progressAt := previous.progressAt; }
        if !definitive { definitiveAt := previous.definitiveAt; }
        if previous.path == path { generation := previous.generation; }
      }
      progress := progress[input := Progress(path, cur, generation, progressAt, definitiveAt)];
      stalled := GRACE <= cur.at - progressAt || HARD_GRACE <= cur.at - definitiveAt;
    }

    /** A file was just handed to the input. */
    method ResetMediaProgress(input: string, path: string, now: int)
      modifies this
      ensures progress == old(progress)[input := Started(path, now)]
    {
      progress := progress[input := Progress(path, Sighting(now, Unset, None), Some(now), now, now)];
    }

    method ClearMediaProgress(input: string)
      modifies this
      ensures progress == old(progress) - {input}
    {
      progress := progress - {input};
    }
  }

  function Lookup(progress: map<string, Progress>, input: string): Option<Progress> {
    if input in progress then Some(progress[input]) else None
  }

  function Started(path: string, now: int): Progress { Progress(path, Sighting(now, Unset, None), Some(now), now, now) }

  function Observed(before: Option<Progress>, path: string, cur: Sighting): Progress {
    if before.None? then Progress(path, cur, None, cur.at, cur.at)
    else
      var p := before.value;
      var reset := p.path != path || cur.at < p.progressAt;
      Progress(path, cur, if p.path == path then p.generation else None,
               if reset || Differs(p.last, cur) then cur.at else p.progressAt,
               if reset || cur.at < p.definitiveAt || Definitive(p.last, cur) then cur.at else p.definitiveAt)
  }

  predicate StalledNow(p: Progress) {
    GRACE <= p.last.at - p.progressAt || HARD_GRACE <= p.last.at - p.definitiveAt
  }

  // ---- Histories ----

  /** What is remembered after a run of observations of one path. */
  function Remembered(start: Option<Progress>, path: string, history: seq<Sighting>): Option<Progress>
    decreases |history|
  {
    if history == [] then start
    else Some(Observed(Remembered(start, path, history[..|history| - 1]), path, history[|history| - 1]))
  }

  predicate TimeOrdered(history: seq<Sighting>) {
    forall i, j | 0 <= i <= j < |history| :: history[i].at <= history[j].at
  }

  /** Observation `i` differs from the one before; the first one counts as a difference. */
  predicate ChangeAt(history: seq<Sighting>, i: nat)
    requires i < |history|
  {
    i == 0 || Differs(history[i - 1], history[i])
  }

  predicate DefinitiveAt(history: seq<Sighting>, i: nat)
    requires i < |history|
  {
    i == 0 || Definitive(history[i - 1], history[i])
  }

  /** The newest observation of the kind is number `i`. */
  predicate NewestChange(history: seq<Sighting>, i: nat) {
    i < |history| && ChangeAt(history, i) && forall j | i < j < |history| :: !ChangeAt(history, j)
  }

  predicate NewestDefinitive(history: seq<Sighting>, i: nat) {
    i < |history| && DefinitiveAt(history, i) && forall j | i < j < |history| :: !DefinitiveAt(history, j)
  }

  /** The stored times are those of the last change and of the last definitive progress. */
  lemma {:induction false} StoredTimesAreHistory(path: string, history: seq<Sighting>) returns (change: nat, definitive: nat)
    requires history != [] && TimeOrdered(history)
    ensures NewestChange(history, change) && NewestDefinitive(history, definitive)
    ensures var p := Remembered(None, path, history);
      && p.Some? && p.value.path == path && p.value.last == history[|history| - 1]
      && p.value.progressAt == history[change].at && p.value.definitiveAt == history[definitive].at
    decreases |history|
  {
    var n := |history| - 1;
    if n == 0 { return 0, 0; }
    var most := history[..n];
    change, definitive := StoredTimesAreHistory(path, most);
    Extends(history, change, definitive);
    if ChangeAt(history, n) { change := n; }
    if DefinitiveAt(history, n) { definitive := n; }
  }

  lemma Extends(history: seq<Sighting>, change: nat, definitive: nat)
    requires 2 <= |history|
    requires NewestChange(history[..|history| - 1], change) && NewestDefinitive(history[..|history| - 1], definitive)
    ensures ChangeAt(history, change) && forall j | change < j < |history| - 1 :: !ChangeAt(history, j)
    ensures DefinitiveAt(history, definitive) && forall j | definitive < j < |history| - 1 :: !DefinitiveAt(history, j)
  {
    var most := history[..|history| - 1];
    assert forall j | 0 <= j < |most| :: ChangeAt(history, j) == ChangeAt(most, j);
    assert forall j | 0 <= j < |most| :: DefinitiveAt(history, j) == DefinitiveAt(most, j);
  }

  predicate Stalled(path: string, history: seq<Sighting>)
    requires history != []
  {
    StalledNow(Remembered(None, path, history).value)
  }

  /** Some change within the grace period before the newest observation. */
  predicate RecentChange(history: seq<Sighting>)
    requires history != []
  {
    exists i :: 0 <= i < |history| && ChangeAt(history, i) && history[|history| - 1].at - history[i].at < GRACE
  }

  predicate RecentDefinitive(history: seq<Sighting>)
    requires history != []
  {
    exists i :: 0 <= i < |history| && DefinitiveAt(history, i) && history[|history| - 1].at - history[i].at < HARD_GRACE
  }

  /**
   The answer equals the history: an input is stalled exactly when nothing changed in the
   last two minutes, or no definitive progress was seen in the last four.
   */
  lemma StalledIffNothingRecent(path: string, history: seq<Sighting>)
    requires history != [] && TimeOrdered(history)
    ensures Stalled(path, history) <==> !(RecentChange(history) && RecentDefinitive(history))
  {
    var change, definitive := StoredTimesAreHistory(path, history);
    hide Remembered, ChangeAt, DefinitiveAt;
    var last := history[|history| - 1].at;
    assert RecentChange(history) <==> last - history[change].at < GRACE by {
      forall i | 0 <= i < |history| && ChangeAt(history, i) ensures history[i].at <= history[change].at {
        assert i <= change;
      }
    }
    assert RecentDefinitive(history) <==> last - history[definitive].at < HARD_GRACE by {
      forall i | 0 <= i < |history| && DefinitiveAt(history, i) ensures history[i].at <= history[definitive].at {
        assert i <= definitive;
      }
    }
  }

  /** Once the cursor stands still, no flapping of the state holds back the answer for longer than four minutes. */
  lemma FlappingCannotHide(path: string, history: seq<Sighting>, since: nat)
    requires TimeOrdered(history) && since < |history|
    requires forall j | since < j < |history| :: !Definitive(history[j - 1], history[j])
    requires 240_000_000_000 <= history[|history| - 1].at - history[since].at
    ensures Stalled(path, history)
  {
    StalledIffNothingRecent(path, history);
    forall i | 0 <= i < |history| && DefinitiveAt(history, i)
      ensures HARD_GRACE <= history[|history| - 1].at - history[i].at
    {
      assert i <= since;
    }
  }

  /** An observation that shows definitive progress is never called stalled. */
  lemma ProgressIsNeverStalled(path: string, history: seq<Sighting>)
    requires 2 <= |history| && TimeOrdered(history)
    requires var before, now := history[|history| - 2].cursor, history[|history| - 1].cursor;
      now.Some? && (before.None? || 1.0 <= now.value - before.value || 1.0 <= before.value - now.value)
    ensures !Stalled(path, history)
  {
    StalledIffNothingRecent(path, history);
    var n := |history| - 1;
    assert ChangeAt(history, n) && DefinitiveAt(history, n);
  }

  predicate Creeps(prev: Sighting, cur: Sighting) {
    && cur.state == prev.state && cur.cursor.Some? && prev.cursor.Some?
    && -1.0 < cur.cursor.value - prev.cursor.value < 1.0
  }

  /**
   Two blind spots of the measure, both inherent in comparing neighbours only. A cursor
   that creeps by less than the epsilon each time counts as standing still, however far it gets.
   */
  lemma CreepingCounts(path: string, history: seq<Sighting>)
    requires TimeOrdered(history) && 1 <= |history|
    requires forall i | 0 < i < |history| :: Creeps(history[i - 1], history[i])
    ensures Stalled(path, history) <==> 120_000_000_000 <= history[|history| - 1].at - history[0].at
  {
    StalledIffNothingRecent(path, history);
    assert ChangeAt(history, 0) && DefinitiveAt(history, 0);
    forall i | 0 < i < |history| ensures !ChangeAt(history, i) && !DefinitiveAt(history, i) {
      assert Creeps(history[i - 1], history[i]);
    }
  }

  predicate Blinks(prev: Sighting, cur: Sighting) {
    cur.cursor.Some? != prev.cursor.Some? && cur.at - prev.at < GRACE
  }

  /** And a cursor that keeps disappearing and coming back at the same place is never called stalled. */
  lemma BlinkingIsNeverStalled(path: string, history: seq<Sighting>)
    requires TimeOrdered(history) && 2 <= |history|
    requires forall i | 0 < i < |history| :: Blinks(history[i - 1], history[i])
    ensures !Stalled(path, history)
  {
    StalledIffNothingRecent(path, history);
    var n := |history| - 1;
    assert Blinks(history[n - 1], history[n]) && (1 < n ==> Blinks(history[n - 2], history[n - 1]));
    assert ChangeAt(history, n);
    if history[n].cursor.Some? {
      assert DefinitiveAt(history, n);
    } else {
      assert DefinitiveAt(history, n - 1);
    }
  }

  /** Starting a file counts like a first observation with no state and no cursor. */
  lemma {:induction false} StartIsAnObservation(path: string, now: int, history: seq<Sighting>)
    ensures var a := Remembered(Some(Started(path, now)), path, history);
            var b := Remembered(None, path, [Sighting(now, Unset, None)] + history);
            a.Some? && b.Some? && a.value == b.value.(generation := Some(now))
    decreases |history|
  {
    var first := [Sighting(now, Unset, None)];
    if history == [] {
      assert first + history == first && first[..0] == [];
    } else {
      var most := history[..|history| - 1];
      assert (first + history)[..|history|] == first + most;
      StartIsAnObservation(path, now, most);
    }
  }

  // ---- Starting over ----

  /** After a change of file only what was seen since then counts. */
  lemma {:induction false} NewFileStartsOver(before: Progress, path: string, history: seq<Sighting>)
    requires before.path != path && history != []
    ensures Remembered(Some(before), path, history) == Remembered(None, path, history)
    decreases |history|
  {
    if 1 < |history| { NewFileStartsOver(before, path, history[..|history| - 1]); }
  }

  /** So does a clock that was set back behind the last progress: both periods of grace start anew. */
  lemma ClockSetBackStartsOver(before: Progress, path: string, cur: Sighting)
    requires cur.at < before.progressAt
    ensures var p := Observed(Some(before), path, cur);
      p.progressAt == cur.at && p.definitiveAt == cur.at && !StalledNow(p)
  {
  }

  /** Whatever the clock and the file do, definitive progress is progress, and neither lies in the future. */
  lemma {:induction false} TimesAreNested(start: Option<Progress>, looks: seq<(string, Sighting)>)
    requires start.Some? ==> start.value.definitiveAt <= start.value.progressAt <= start.value.last.at
    ensures var p := RememberedAll(start, looks);
      p.Some? ==> p.value.definitiveAt <= p.value.progressAt <= p.value.last.at
    decreases |looks|
  {
    if looks != [] { TimesAreNested(start, looks[..|looks| - 1]); }
  }

  /** What is remembered after observations of one input, whichever file it was to play. */
  function RememberedAll(start: Option<Progress>, looks: seq<(string, Sighting)>): Option<Progress>
    decreases |looks|
  {
    if looks == [] then start
    else
      var look := looks[|looks| - 1];
      Some(Observed(RememberedAll(start, looks[..|looks| - 1]), look.0, look.1))
  }

  /** The file an input is to play now was first seen at `from`; only the observations since then decide. */
  lemma {:induction false} OnlyTheCurrentFileCounts(looks: seq<(string, Sighting)>, from: nat, path: string,
                                                    history: seq<Sighting>)
    requires from < |looks| == from + |history|
    requires 0 < from ==> looks[from - 1].0 != path
    requires forall i | 0 <= i < |history| :: looks[from + i] == (path, history[i])
    ensures RememberedAll(None, looks) == Remembered(None, path, history)
    decreases |history|
  {
    var most := looks[..|looks| - 1];
    if |history| == 1 {
      if 0 < from { assert most[|most| - 1].0 != path; }
    } else {
      OnlyTheCurrentFileCounts(most, from, path, history[..|history| - 1]);
      assert looks[from + (|history| - 1)] == (path, history[|history| - 1]);
    }
  }

  // ---- When to look again ----

  const CONFIRMATION_MIN: real := 100.0
  const CONFIRMATION_MAX: real := 750.0
  const FALLBACK_GAP: real := 251.0

  function Ceiling(x: real): int { -((-x).Floor) }

  /** Milliseconds to wait before a second look at a looping cursor. */
  function ConfirmationDelay(duration: Option<real>): real {
    if duration.None? || duration.value <= 0.0 then FALLBACK_GAP
    else
      var half := duration.value / 2.0;
      if half < CONFIRMATION_MIN then
        Ceiling((CONFIRMATION_MIN - half) / duration.value) as real * duration.value + half
      else if CONFIRMATION_MAX < half then CONFIRMATION_MAX
      else half
  }

  lemma HalfIsNoMultiple(m: int, d: real)
    requires 0.0 < d
    ensures m as real * d != d / 2.0
  {
    assert 1 <= m ==> d <= m as real * d;
    assert m <= 0 ==> m as real * d <= 0.0;
  }

  lemma CeilingCovers(x: real, d: real)
    requires 0.0 < d && 0.0 < x
    ensures 0 < Ceiling(x / d) && x <= Ceiling(x / d) as real * d && Ceiling(x / d) as real * d < x + d
  {
    var q := x / d;
    assert q * d == x && 0.0 < q;
    var c := Ceiling(q) as real;
    NotAbove(x, q, c, d);
    if q < c { Scaled(q, c, d); }
  }

  lemma NotAbove(x: real, q: real, c: real, d: real)
    requires 0.0 < d && q * d == x && c < q + 1.0
    ensures c * d < x + d
  {
    Scaled(c, q + 1.0, d);
    assert c * d < (q + 1.0) * d;
    assert (q + 1.0) * d == q * d + 1.0 * d;
    assert 1.0 * d == d;
    assert c * d < q * d + d;
    assert q * d == x;
  }

  lemma Scaled(a: real, b: real, d: real)
    requires 0.0 < d && a < b
    ensures a * d < b * d
  {
    assert 0.0 < (b - a) * d;
    assert (b - a) * d == b * d - a * d;
  }

  /** A loop never looks the same by chance: the wait is practical and never a whole number of rounds. */
  lemma ConfirmationMissesThePhase(duration: real, rounds: int)
    requires 0.0 < duration
    ensures var delay := ConfirmationDelay(Some(duration));
      && CONFIRMATION_MIN <= delay && delay <= Larger(CONFIRMATION_MAX, CONFIRMATION_MIN + duration)
      && delay != rounds as real * duration
  {
    var half := duration / 2.0;
    var delay := ConfirmationDelay(Some(duration));
    if half < CONFIRMATION_MIN {
      CeilingCovers(CONFIRMATION_MIN - half, duration);
      var cycles := Ceiling((CONFIRMATION_MIN - half) / duration);
      HalfIsNoMultiple(rounds - cycles, duration);
      assert (rounds - cycles) as real * duration == rounds as real * duration - cycles as real * duration;
    } else if CONFIRMATION_MAX < half {
      assert 1 <= rounds ==> duration <= rounds as real * duration;
      assert rounds <= 0 ==> rounds as real * duration <= 0.0;
    } else {
      HalfIsNoMultiple(rounds, duration);
    }
  }

  function Larger(a: real, b: real): real { if a < b then b else a }
}
