/**
 The trace verifier: a structural pass over the lines, then a bounded search for
 the stale-event correlation. The search is proved against a pattern over the
 recorded events that does not mention any order of searching.
 */
module Verifier {
  import opened Results
  import opened Evidence

  datatype VerifyError = InvalidTrace | NoCorrelation

  datatype Verdict = Verdict(aSeq: nat, bSeq: nat, endedSeq: nat, immediateSeq: nat, settledSeq: nat, delta: int)

  // ---- The pattern ----

  predicate RestartSnapshot(r: Record, restart: nat) {
    r.kind.Snapshot? && r.trigger.OnRestart? && r.result == Some(true) && r.related == restart
  }

  /** The snapshot that stands for a restart: the last successful one taken for it. */
  function SnapshotOf(rs: seq<Record>, restart: nat): Option<Record> {
    if rs == [] then None
    else if RestartSnapshot(rs[|rs| - 1], restart) then Some(rs[|rs| - 1])
    else SnapshotOf(rs[..|rs| - 1], restart)
  }

  /** Record `i` is a restart of `basename`, and a later snapshot saw that file. */
  predicate Confirmed(rs: seq<Record>, i: nat, basename: string)
    requires i < |rs|
  {
    && IsRestart(rs[i]) && rs[i].basename == basename
    && var s := SnapshotOf(rs, rs[i].seqNo);
       s.Some? && rs[i].seqNo < s.value.seqNo && s.value.basename == basename
  }

  predicate IsSettingsChange(r: Record) { r.kind.SettingsChanged? }

  /** Between the restart of A and the restart of B the input was switched to B once, and nothing else happened to it. */
  predicate CleanTransition(rs: seq<Record>, a: nat, b: nat, aName: string, bName: string)
    requires a < b < |rs|
  {
    && (forall k | a < k < b :: !rs[k].kind.MediaAction?)
    && (exists k :: a < k < b && IsSettingsChange(rs[k]))
    && (forall k | a < k < b && IsSettingsChange(rs[k]) :: rs[k].basename == bName)
    && (forall k, l | a < k < b && a < l < b && IsSettingsChange(rs[k]) && IsSettingsChange(rs[l]) :: k == l)
    && (forall k | a < k < b && rs[k].kind.Snapshot? && rs[k].trigger.OnRestart? ::
          rs[k].related == rs[a].seqNo && rs[k].basename == aName)
  }

  predicate PromptEnd(rs: seq<Record>, b: nat, e: nat, bName: string)
    requires b < |rs| && e < |rs|
  {
    var delta := rs[e].elapsed - rs[b].elapsed;
    && rs[e].kind.PlaybackEnded? && rs[e].lastRestart == rs[b].seqNo && rs[e].basename == bName
    && 0 <= delta < CORRELATION_WINDOW && rs[e].since == Some(delta)
  }

  /** The snapshot of the B restart was taken between the restart and the end event. */
  predicate SeenBeforeEnd(rs: seq<Record>, b: nat, e: nat)
    requires b < |rs| && e < |rs|
  {
    var s := SnapshotOf(rs, rs[b].seqNo);
    s.Some? && rs[b].seqNo < s.value.seqNo < rs[e].seqNo && s.value.response <= rs[e].elapsed
  }

  predicate FollowUp(r: Record, ended: Record, bName: string) {
    r.kind.Snapshot? && r.related == ended.seqNo && r.result == Some(true) && r.basename == bName
  }

  predicate ImmediateFollowUp(r: Record, ended: Record, bName: string) {
    FollowUp(r, ended, bName) && r.trigger.EndedImmediate? && 0 <= r.sent - ended.elapsed < SECOND
  }

  predicate SettledFollowUp(r: Record, ended: Record, bName: string) {
    FollowUp(r, ended, bName) && r.trigger.EndedSettle?
    && CORRELATION_WINDOW <= r.sent - ended.elapsed < CORRELATION_WINDOW + SECOND
  }

  /** `i` is the first record after `e` of the given kind of follow-up. */
  predicate FirstImmediate(rs: seq<Record>, e: nat, i: nat, bName: string)
    requires e < i < |rs|
  {
    ImmediateFollowUp(rs[i], rs[e], bName) && forall k | e < k < i :: !ImmediateFollowUp(rs[k], rs[e], bName)
  }

  predicate FirstSettled(rs: seq<Record>, e: nat, s: nat, bName: string)
    requires e < s < |rs|
  {
    SettledFollowUp(rs[s], rs[e], bName) && forall k | e < k < s :: !SettledFollowUp(rs[k], rs[e], bName)
  }

  /** From the B restart until the settled answer nothing but the end event shows anything other than B. */
  predicate Contaminates(r: Record, restartAt: int, bName: string, endedSeq: nat) {
    || (r.kind.SettingsChanged? && r.basename != bName)
    || r.kind.MediaAction?
    || (r.kind.PlaybackEnded? && r.seqNo != endedSeq)
    || (r.kind.Snapshot? && restartAt <= r.sent && r.result == Some(true) && r.basename != bName)
  }

  predicate StaysOnB(rs: seq<Record>, b: nat, e: nat, s: nat, bName: string)
    requires b < |rs| && e < |rs| && s < |rs|
  {
    forall k | b < k < |rs| && rs[k].elapsed <= rs[s].response ::
      !Contaminates(rs[k], rs[b].elapsed, bName, rs[e].seqNo)
  }

  /** The correlation: A restarted, B replaced it cleanly, and an end event came promptly while B kept playing. */
  predicate Correlated(rs: seq<Record>, aName: string, bName: string, a: nat, b: nat, e: nat, i: nat, s: nat) {
    && a < b < e < i < s < |rs|
    && Confirmed(rs, a, aName) && SnapshotOf(rs, rs[a].seqNo).value.seqNo < rs[b].seqNo
    && Confirmed(rs, b, bName)
    && CleanTransition(rs, a, b, aName, bName)
    && PromptEnd(rs, b, e, bName) && SeenBeforeEnd(rs, b, e)
    && FirstImmediate(rs, e, i, bName) && FirstSettled(rs, e, s, bName)
    && rs[i].response <= rs[s].sent
    && StaysOnB(rs, b, e, s, bName)
  }

  /** Numbered and in time order, as the structural pass guarantees. */
  predicate Ordered(rs: seq<Record>) {
    && (forall i | 0 <= i < |rs| :: rs[i].seqNo == i + 1)
    && (forall i, j | 0 <= i <= j < |rs| :: rs[i].elapsed <= rs[j].elapsed)
    && (forall i | 0 <= i < |rs| && rs[i].kind.Snapshot? :: rs[i].response == rs[i].elapsed)
  }

  function VerdictOf(rs: seq<Record>, a: nat, b: nat, e: nat, i: nat, s: nat): Verdict
    requires a < |rs| && b < |rs| && e < |rs| && i < |rs| && s < |rs|
  {
    Verdict(rs[a].seqNo, rs[b].seqNo, rs[e].seqNo, rs[i].seqNo, rs[s].seqNo, rs[e].elapsed - rs[b].elapsed)
  }

  // ---- Facts about snapshots ----

  lemma {:induction false} SnapshotOfIsLast(rs: seq<Record>, restart: nat)
    requires Ordered(rs)
    ensures SnapshotOf(rs, restart).None? ==> forall k | 0 <= k < |rs| :: !RestartSnapshot(rs[k], restart)
    ensures SnapshotOf(rs, restart).Some? ==>
      var n := SnapshotOf(rs, restart).value.seqNo;
      && 1 <= n <= |rs| && rs[n - 1] == SnapshotOf(rs, restart).value && RestartSnapshot(rs[n - 1], restart)
      && forall k | n <= k < |rs| :: !RestartSnapshot(rs[k], restart)
    decreases |rs|
  {
    if rs != [] && !RestartSnapshot(rs[|rs| - 1], restart) {
      SnapshotOfIsLast(rs[..|rs| - 1], restart);
    }
  }

  // ---- The search ----

  method RestartSnapshots(rs: seq<Record>) returns (snapshots: map<nat, Record>)
    ensures forall n: nat :: n in snapshots <==> SnapshotOf(rs, n).Some?
    ensures forall n: nat | n in snapshots :: SnapshotOf(rs, n) == Some(snapshots[n])
  {
    snapshots := map[];
    for k := 0 to |rs|
      invariant forall n: nat :: n in snapshots <==> SnapshotOf(rs[..k], n).Some?
      invariant forall n: nat | n in snapshots :: SnapshotOf(rs[..k], n) == Some(snapshots[n])
    {
      assert rs[..k + 1][..k] == rs[..k];
      if rs[k].kind.Snapshot? && rs[k].trigger.OnRestart? && rs[k].result == Some(true) {
        snapshots := snapshots[rs[k].related := rs[k]];
      }
    }
    assert rs[..|rs|] == rs;
  }

  predicate Agrees(rs: seq<Record>, snapshots: map<nat, Record>) {
    forall k | 0 <= k < |rs| ::
      SnapshotOf(rs, rs[k].seqNo) == if rs[k].seqNo in snapshots then Some(snapshots[rs[k].seqNo]) else None
  }

  predicate ConfirmedRestart(r: Record, basename: string, snapshots: map<nat, Record>) {
    && IsRestart(r) && r.basename == basename && r.seqNo in snapshots
    && r.seqNo < snapshots[r.seqNo].seqNo && snapshots[r.seqNo].basename == basename
  }

  method PrecedingConfirmedARestart(rs: seq<Record>, b: nat, aName: string, snapshots: map<nat, Record>)
    returns (found: Option<nat>)
    requires b < |rs| && Agrees(rs, snapshots)
    ensures found.Some? ==>
      && found.value < b && Confirmed(rs, found.value, aName)
      && SnapshotOf(rs, rs[found.value].seqNo).value.seqNo < rs[b].seqNo
    ensures forall a | 0 <= a < b && (found.Some? ==> found.value < a) ::
      !(Confirmed(rs, a, aName) && SnapshotOf(rs, rs[a].seqNo).value.seqNo < rs[b].seqNo)
  {
    var idx := b;
    while 0 < idx
      invariant 0 <= idx <= b
      invariant forall a | idx <= a < b ::
        !(Confirmed(rs, a, aName) && SnapshotOf(rs, rs[a].seqNo).value.seqNo < rs[b].seqNo)
    {
      idx := idx - 1;
      if ConfirmedRestart(rs[idx], aName, snapshots) && snapshots[rs[idx].seqNo].seqNo < rs[b].seqNo {
        return Some(idx);
      }
    }
    found := None;
  }

  method CleanAToBTransition(rs: seq<Record>, a: nat, b: nat, aName: string, bName: string) returns (clean: bool)
    requires a < b < |rs|
    ensures clean <==> CleanTransition(rs, a, b, aName, bName)
  {
    var bChanges := 0;
    ghost var change := a;
    for k := a + 1 to b
      invariant 0 <= bChanges <= 1
      invariant forall l | a < l < k :: !rs[l].kind.MediaAction?
      invariant forall l | a < l < k && rs[l].kind.Snapshot? && rs[l].trigger.OnRestart? ::
        rs[l].related == rs[a].seqNo && rs[l].basename == aName
      invariant bChanges == 0 ==> forall l | a < l < k :: !IsSettingsChange(rs[l])
      invariant bChanges == 1 ==> a < change < k && IsSettingsChange(rs[change]) && rs[change].basename == bName
      invariant bChanges == 1 ==> forall l | a < l < k && IsSettingsChange(rs[l]) :: l == change
    {
      match rs[k].kind {
        case SettingsChanged =>
          assert IsSettingsChange(rs[k]);
          if rs[k].basename != bName { return false; }
          bChanges := bChanges + 1;
          if bChanges > 1 {
            assert IsSettingsChange(rs[change]) && change != k;
            return false;
          }
          change := k;
        case MediaAction =>
          return false;
        case Snapshot =>
          if rs[k].trigger.OnRestart? && (rs[k].related != rs[a].seqNo || rs[k].basename != aName) { return false; }
        case _ =>
      }
    }
    clean := bChanges == 1;
  }

  /** The first immediate and the first settled follow-up of an end event. */
  method EndedSnapshots(rs: seq<Record>, e: nat, bName: string)
    returns (immediate: Option<nat>, settled: Option<nat>, ok: bool)
    requires e < |rs|
    ensures immediate.Some? ==> e < immediate.value < |rs| && FirstImmediate(rs, e, immediate.value, bName)
    ensures immediate.None? ==> forall k | e < k < |rs| :: !ImmediateFollowUp(rs[k], rs[e], bName)
    ensures settled.Some? ==> e < settled.value < |rs| && FirstSettled(rs, e, settled.value, bName)
    ensures settled.None? ==> forall k | e < k < |rs| :: !SettledFollowUp(rs[k], rs[e], bName)
    ensures ok <==> immediate.Some? && settled.Some? && rs[immediate.value].seqNo < rs[settled.value].seqNo
                    && rs[immediate.value].response <= rs[settled.value].sent
  {
    immediate, settled := None, None;
    for k := e + 1 to |rs|
      invariant immediate.Some? ==> e < immediate.value < k && FirstImmediate(rs, e, immediate.value, bName)
      invariant immediate.None? ==> forall l | e < l < k :: !ImmediateFollowUp(rs[l], rs[e], bName)
      invariant settled.Some? ==> e < settled.value < k && FirstSettled(rs, e, settled.value, bName)
      invariant settled.None? ==> forall l | e < l < k :: !SettledFollowUp(rs[l], rs[e], bName)
    {
      var r := rs[k];
      if !r.kind.Snapshot? || r.related != rs[e].seqNo || r.result != Some(true) || r.basename != bName { continue; }
      match r.trigger {
        case EndedImmediate =>
          if rs[e].elapsed <= r.sent && r.sent - rs[e].elapsed < SECOND && immediate.None? { immediate := Some(k); }
        case EndedSettle =>
          if CORRELATION_WINDOW <= r.sent - rs[e].elapsed && r.sent - rs[e].elapsed < CORRELATION_WINDOW + SECOND
             && settled.None? { settled := Some(k); }
        case _ =>
      }
    }
    ok := immediate.Some? && settled.Some? && rs[immediate.value].seqNo < rs[settled.value].seqNo
          && rs[immediate.value].response <= rs[settled.value].sent;
  }

  method SwitchedAway(rs: seq<Record>, b: nat, e: nat, s: nat, bName: string) returns (switched: bool)
    requires Ordered(rs) && b < |rs| && e < |rs| && s < |rs|
    ensures switched <==> !StaysOnB(rs, b, e, s, bName)
  {
    for k := b + 1 to |rs|
      invariant forall l | b < l < k ::
        rs[l].elapsed <= rs[s].response && !Contaminates(rs[l], rs[b].elapsed, bName, rs[e].seqNo)
    {
      if rs[s].response < rs[k].elapsed {
        assert forall l | k <= l < |rs| :: rs[k].elapsed <= rs[l].elapsed;
        return false;
      }
      match rs[k].kind {
        case SettingsChanged => if rs[k].basename != bName { return true; }
        case MediaAction => return true;
        case PlaybackEnded => if rs[k].seqNo != rs[e].seqNo { return true; }
        case Snapshot =>
          if rs[b].elapsed <= rs[k].sent && rs[k].result == Some(true) && rs[k].basename != bName { return true; }
        case _ =>
      }
    }
    switched := false;
  }

  ghost predicate NoneFor(rs: seq<Record>, aName: string, bName: string, b: nat, e: nat) {
    forall a: nat, i: nat, s: nat :: !Correlated(rs, aName, bName, a, b, e, i, s)
  }

  ghost predicate NoneAt(rs: seq<Record>, aName: string, bName: string, b: nat) {
    forall e: nat :: NoneFor(rs, aName, bName, b, e)
  }

  /** In a clean transition the A restart is the nearest one, so searching backwards finds it. */
  lemma OnlyThisA(rs: seq<Record>, aName: string, bName: string, b: nat, found: Option<nat>)
    requires b < |rs|
    requires found.Some? ==> found.value < b && Confirmed(rs, found.value, aName)
    requires forall a | 0 <= a < b && (found.Some? ==> found.value < a) ::
      !(Confirmed(rs, a, aName) && SnapshotOf(rs, rs[a].seqNo).value.seqNo < rs[b].seqNo)
    ensures forall a: nat, e: nat, i: nat, s: nat | Correlated(rs, aName, bName, a, b, e, i, s) :: found == Some(a)
  {
    if found.Some? { assert IsRestart(rs[found.value]) && rs[found.value].kind.MediaAction?; }
  }

  /** One candidate end event: every test of the search refutes it or it completes the pattern. */
  method TryEnd(rs: seq<Record>, aName: string, bName: string, a: nat, b: nat, e: nat, bSnapshot: Record)
    returns (verdict: Option<Verdict>)
    requires Ordered(rs) && a < b < e < |rs|
    requires Confirmed(rs, a, aName) && SnapshotOf(rs, rs[a].seqNo).value.seqNo < rs[b].seqNo
    requires Confirmed(rs, b, bName) && CleanTransition(rs, a, b, aName, bName)
    requires SnapshotOf(rs, rs[b].seqNo) == Some(bSnapshot)
    ensures verdict.Some? ==> Found(rs, aName, bName, a, b, e, verdict.value)
    ensures verdict.None? ==> forall i: nat, s: nat :: !Correlated(rs, aName, bName, a, b, e, i, s)
  {
    var r := rs[e];
    if !r.kind.PlaybackEnded? || r.lastRestart != rs[b].seqNo || r.basename != bName { return None; }
    var delta := r.elapsed - rs[b].elapsed;
    if delta < 0 || CORRELATION_WINDOW <= delta || r.since.None? || r.since.value != delta { return None; }
    if bSnapshot.seqNo <= rs[b].seqNo || r.seqNo <= bSnapshot.seqNo || r.elapsed < bSnapshot.response { return None; }
    var immediate, settled, ok := EndedSnapshots(rs, e, bName);
    if !ok { return None; }
    var switched := SwitchedAway(rs, b, e, settled.value, bName);
    if switched { return None; }
    var i, s := immediate.value, settled.value;
    assert Correlated(rs, aName, bName, a, b, e, i, s);
    verdict := Some(VerdictOf(rs, a, b, e, i, s));
  }

  ghost predicate Found(rs: seq<Record>, aName: string, bName: string, a: nat, b: nat, e: nat, v: Verdict) {
    exists i: nat, s: nat ::
      Correlated(rs, aName, bName, a, b, e, i, s) && v == VerdictOf(rs, a, b, e, i, s)
  }

  /** All end events that could follow one clean A-to-B transition, earliest first. */
  method SearchEnds(rs: seq<Record>, aName: string, bName: string, a: nat, b: nat, bSnapshot: Record)
    returns (verdict: Option<Verdict>, ghost end: nat)
    requires Ordered(rs) && a < b < |rs|
    requires Confirmed(rs, a, aName) && SnapshotOf(rs, rs[a].seqNo).value.seqNo < rs[b].seqNo
    requires Confirmed(rs, b, bName) && CleanTransition(rs, a, b, aName, bName)
    requires SnapshotOf(rs, rs[b].seqNo) == Some(bSnapshot)
    ensures verdict.Some? ==> Found(rs, aName, bName, a, b, end, verdict.value)
    ensures forall e: nat, i: nat, s: nat | verdict.None? || e < end :: !Correlated(rs, aName, bName, a, b, e, i, s)
  {
    end := b + 1;
    for e := b + 1 to |rs|
      invariant forall e': nat, i: nat, s: nat | e' < e :: !Correlated(rs, aName, bName, a, b, e', i, s)
    {
      verdict := TryEnd(rs, aName, bName, a, b, e, bSnapshot);
      end := e;
      if verdict.Some? { return; }
    }
    verdict := None;
  }

  /** Everything the search does for one candidate B restart. */
  method SearchFrom(rs: seq<Record>, aName: string, bName: string, b: nat, snapshots: map<nat, Record>)
    returns (verdict: Option<Verdict>, ghost start: nat, ghost end: nat)
    requires Ordered(rs) && b < |rs| && Agrees(rs, snapshots)
    ensures verdict.Some? ==> Found(rs, aName, bName, start, b, end, verdict.value)
    ensures verdict.Some? ==> forall e: nat | e < end :: NoneFor(rs, aName, bName, b, e)
    ensures verdict.None? ==> NoneAt(rs, aName, bName, b)
  {
    verdict, start, end := None, 0, 0;
    if !ConfirmedRestart(rs[b], bName, snapshots) { return; }
    var found := PrecedingConfirmedARestart(rs, b, aName, snapshots);
    OnlyThisA(rs, aName, bName, b, found);
    if found.None? { return; }
    start := found.value;
    var clean := CleanAToBTransition(rs, found.value, b, aName, bName);
    if !clean { return; }
    verdict, end := SearchEnds(rs, aName, bName, found.value, b, snapshots[rs[b].seqNo]);
  }

  /**
   The search is exact: it answers exactly when the pattern occurs, and it then
   reports the occurrence with the earliest B restart and, for it, the earliest end.
   */
  method FindCorrelation(rs: seq<Record>, aName: string, bName: string) returns (verdict: Option<Verdict>)
    requires Ordered(rs)
    ensures verdict.None? ==>
      forall a: nat, b: nat, e: nat, i: nat, s: nat :: !Correlated(rs, aName, bName, a, b, e, i, s)
    ensures verdict.Some? ==>
      exists a: nat, b: nat, e: nat ::
        && Found(rs, aName, bName, a, b, e, verdict.value)
        && (forall earlier: nat | earlier < b :: NoneAt(rs, aName, bName, earlier))
        && (forall earlier: nat | earlier < e :: NoneFor(rs, aName, bName, b, earlier))
  {
    hide Correlated;
    var snapshots := RestartSnapshots(rs);
    assert Agrees(rs, snapshots);
    for b := 0 to |rs|
      invariant forall earlier: nat | earlier < b :: NoneAt(rs, aName, bName, earlier)
    {
      ghost var start, end;
      verdict, start, end := SearchFrom(rs, aName, bName, b, snapshots);
      if verdict.Some? { return; }
    }
    forall a: nat, b: nat, e: nat, i: nat, s: nat ensures !Correlated(rs, aName, bName, a, b, e, i, s) {
      BRange(rs, aName, bName, a, b, e, i, s);
      if b < |rs| { assert NoneAt(rs, aName, bName, b) && NoneFor(rs, aName, bName, b, e); }
    }
    verdict := None;
  }

  lemma BRange(rs: seq<Record>, aName: string, bName: string, a: nat, b: nat, e: nat, i: nat, s: nat)
    ensures Correlated(rs, aName, bName, a, b, e, i, s) ==> b < |rs|
  {
  }

  /** What a reported correlation means, in the terms of the recorded events. */
  lemma VerdictMeaning(rs: seq<Record>, aName: string, bName: string, a: nat, b: nat, e: nat, i: nat, s: nat)
    requires Ordered(rs) && Correlated(rs, aName, bName, a, b, e, i, s)
    ensures var v := VerdictOf(rs, a, b, e, i, s);
      && v == Verdict(a + 1, b + 1, e + 1, i + 1, s + 1, rs[e].elapsed - rs[b].elapsed)
      && v.aSeq < v.bSeq < v.endedSeq < v.immediateSeq < v.settledSeq
      && 0 <= v.delta < 2 * SECOND
    // the A restart is the last media action before the B restart
    ensures forall k | a < k < b :: !rs[k].kind.MediaAction?
    // the end event is the only one from the B restart to the settled snapshot
    ensures forall k | b < k <= s && rs[k].kind.PlaybackEnded? :: k == e
    // no other media action and no other file up to the settled snapshot
    ensures forall k | b < k <= s :: !rs[k].kind.MediaAction? && (IsSettingsChange(rs[k]) ==> rs[k].basename == bName)
  {
    forall k | b < k <= s ensures !Contaminates(rs[k], rs[b].elapsed, bName, rs[e].seqNo) {
      assert rs[k].elapsed <= rs[s].elapsed;
    }
  }

  // ---- Traces that answer each request once ----

  /** No two snapshots were taken for the same reason and the same event. */
  predicate AnsweredOnce(rs: seq<Record>) {
    forall k, l | 0 <= k < l < |rs| && rs[k].kind.Snapshot? && rs[l].kind.Snapshot? && !rs[k].trigger.Initial? ::
      rs[k].trigger != rs[l].trigger || rs[k].related != rs[l].related
  }

  predicate Restarts(r: Record, basename: string) {
    r.kind.MediaAction? && r.action.Restart? && r.basename == basename
  }

  /** The record is an answer to the snapshot requested for this reason after record number `related`. */
  predicate Shows(r: Record, trigger: Trigger, related: nat, basename: string) {
    r.kind.Snapshot? && r.trigger == trigger && r.result == Some(true) && r.related == related && r.basename == basename
  }

  /**
   The correlation in plain words, with no "first" and no "last": A was restarted and seen, the input was
   switched to B once, B was restarted and seen, the end of B came within two seconds of its restart, B was
   seen at once and again two to three seconds later, and nothing else came in between.
   */
  predicate CorrelatedBy(rs: seq<Record>, aName: string, bName: string, a: nat, aSeen: nat, change: nat,
                         b: nat, bSeen: nat, e: nat, i: nat, s: nat) {
    && a < aSeen < b && a < change < b < bSeen < e < i < s < |rs|
    && Restarts(rs[a], aName) && Shows(rs[aSeen], OnRestart, a + 1, aName)
    && rs[change].kind.SettingsChanged? && rs[change].basename == bName
    && Restarts(rs[b], bName) && Shows(rs[bSeen], OnRestart, b + 1, bName)
    && rs[e].kind.PlaybackEnded? && rs[e].basename == bName && rs[e].lastRestart == b + 1
    && rs[e].since == Some(rs[e].elapsed - rs[b].elapsed) && rs[e].elapsed - rs[b].elapsed < 2 * SECOND
    && Shows(rs[i], EndedImmediate, e + 1, bName) && rs[e].elapsed <= rs[i].sent < rs[e].elapsed + SECOND
    && Shows(rs[s], EndedSettle, e + 1, bName)
    && rs[e].elapsed + 2 * SECOND <= rs[s].sent < rs[e].elapsed + 3 * SECOND
    && rs[i].response <= rs[s].sent
    && (forall k | a < k < b ::
          && !rs[k].kind.MediaAction? && (rs[k].kind.SettingsChanged? ==> k == change)
          && (rs[k].kind.Snapshot? && rs[k].trigger.OnRestart? ==> rs[k].related == a + 1 && rs[k].basename == aName))
    && (forall k | b < k < |rs| && rs[k].elapsed <= rs[s].response ::
          && !rs[k].kind.MediaAction? && (rs[k].kind.SettingsChanged? ==> rs[k].basename == bName)
          && (rs[k].kind.PlaybackEnded? ==> k == e)
          && (rs[k].kind.Snapshot? && rs[k].result == Some(true) && rs[k].basename != bName ==>
                rs[k].sent < rs[b].elapsed))
  }

  lemma TheSnapshot(rs: seq<Record>, restart: nat, seen: nat)
    requires Ordered(rs) && AnsweredOnce(rs) && seen < |rs| && RestartSnapshot(rs[seen], restart)
    ensures SnapshotOf(rs, restart) == Some(rs[seen])
  {
    SnapshotOfIsLast(rs, restart);
  }

  lemma CleanInPlainWords(rs: seq<Record>, a: nat, change: nat, b: nat, aName: string, bName: string)
    requires Ordered(rs) && a < change < b < |rs| && IsSettingsChange(rs[change])
    ensures CleanTransition(rs, a, b, aName, bName) <==>
      && rs[change].basename == bName
      && forall k | a < k < b ::
           && !rs[k].kind.MediaAction? && (rs[k].kind.SettingsChanged? ==> k == change)
           && (rs[k].kind.Snapshot? && rs[k].trigger.OnRestart? ==> rs[k].related == a + 1 && rs[k].basename == aName)
  {
  }

  lemma StayingInPlainWords(rs: seq<Record>, b: nat, e: nat, s: nat, bName: string)
    requires Ordered(rs) && b < |rs| && e < |rs| && s < |rs|
    ensures StaysOnB(rs, b, e, s, bName) <==>
      forall k | b < k < |rs| && rs[k].elapsed <= rs[s].response ::
        && !rs[k].kind.MediaAction? && (rs[k].kind.SettingsChanged? ==> rs[k].basename == bName)
        && (rs[k].kind.PlaybackEnded? ==> k == e)
        && (rs[k].kind.Snapshot? && rs[k].result == Some(true) && rs[k].basename != bName ==>
              rs[k].sent < rs[b].elapsed)
  {
    if StaysOnB(rs, b, e, s, bName) {
      forall k | b < k < |rs| && rs[k].elapsed <= rs[s].response
        ensures !Contaminates(rs[k], rs[b].elapsed, bName, rs[e].seqNo)
      {
      }
    }
  }

  lemma OnlyFollowUps(rs: seq<Record>, e: nat, i: nat, s: nat, bName: string)
    requires Ordered(rs) && AnsweredOnce(rs) && e < i < s < |rs|
    requires ImmediateFollowUp(rs[i], rs[e], bName) && SettledFollowUp(rs[s], rs[e], bName)
    ensures FirstImmediate(rs, e, i, bName) && FirstSettled(rs, e, s, bName)
  {
    forall k | e < k < i ensures !ImmediateFollowUp(rs[k], rs[e], bName) {
    }
    forall k | e < k < s ensures !SettledFollowUp(rs[k], rs[e], bName) {
    }
  }

  lemma OnceForwards(rs: seq<Record>, aName: string, bName: string, a: nat, b: nat, e: nat, i: nat, s: nat)
      returns (aSeen: nat, change: nat, bSeen: nat)
    requires Ordered(rs) && AnsweredOnce(rs) && Correlated(rs, aName, bName, a, b, e, i, s)
    ensures CorrelatedBy(rs, aName, bName, a, aSeen, change, b, bSeen, e, i, s)
  {
    SnapshotOfIsLast(rs, rs[a].seqNo);
    SnapshotOfIsLast(rs, rs[b].seqNo);
    aSeen := SnapshotOf(rs, rs[a].seqNo).value.seqNo - 1;
    bSeen := SnapshotOf(rs, rs[b].seqNo).value.seqNo - 1;
    change :| a < change < b && IsSettingsChange(rs[change]);
    CleanInPlainWords(rs, a, change, b, aName, bName);
    StayingInPlainWords(rs, b, e, s, bName);
    hide SnapshotOf, CleanTransition, StaysOnB, AnsweredOnce;
  }

  lemma OnceBackwards(rs: seq<Record>, aName: string, bName: string,
                      a: nat, aSeen: nat, change: nat, b: nat, bSeen: nat, e: nat, i: nat, s: nat)
    requires Ordered(rs) && AnsweredOnce(rs) && CorrelatedBy(rs, aName, bName, a, aSeen, change, b, bSeen, e, i, s)
    ensures Correlated(rs, aName, bName, a, b, e, i, s)
  {
    hide SnapshotOf, CleanTransition, StaysOnB, AnsweredOnce, FirstImmediate, FirstSettled;
    TheSnapshot(rs, rs[a].seqNo, aSeen);
    TheSnapshot(rs, rs[b].seqNo, bSeen);
    CleanInPlainWords(rs, a, change, b, aName, bName);
    StayingInPlainWords(rs, b, e, s, bName);
    OnlyFollowUps(rs, e, i, s, bName);
    assert rs[bSeen].elapsed <= rs[e].elapsed && rs[b].elapsed <= rs[e].elapsed;
  }

  /** On such traces the two readings of the pattern coincide. */
  lemma OnceMakesItSimple(rs: seq<Record>, aName: string, bName: string, a: nat, b: nat, e: nat, i: nat, s: nat)
    requires Ordered(rs) && AnsweredOnce(rs)
    ensures Correlated(rs, aName, bName, a, b, e, i, s) <==>
      exists aSeen: nat, change: nat, bSeen: nat :: CorrelatedBy(rs, aName, bName, a, aSeen, change, b, bSeen, e, i, s)
  {
    hide Correlated, CorrelatedBy, Ordered, AnsweredOnce;
    if Correlated(rs, aName, bName, a, b, e, i, s) {
      var aSeen, change, bSeen := OnceForwards(rs, aName, bName, a, b, e, i, s);
    }
    forall aSeen: nat, change: nat, bSeen: nat | CorrelatedBy(rs, aName, bName, a, aSeen, change, b, bSeen, e, i, s)
      ensures Correlated(rs, aName, bName, a, b, e, i, s)
    {
      OnceBackwards(rs, aName, bName, a, aSeen, change, b, bSeen, e, i, s);
    }
  }

  // ---- The structural pass ----

  predicate AllLinesOk(lines: seq<Line>, n: nat)
    requires n <= |lines|
  {
    forall i | 0 <= i < n :: LineOk(lines, i, Size(lines))
  }

  lemma LinesAreDecoded(lines: seq<Line>, n: nat)
    requires n <= |lines| && AllLinesOk(lines, n)
    ensures forall i | 0 <= i < n :: lines[i].Decoded?
  {
    forall i | 0 <= i < n ensures lines[i].Decoded? {
      assert LineOk(lines, i, Size(lines));
    }
  }

  lemma {:induction false} ElapsedGrows(lines: seq<Line>, i: nat, j: nat)
    requires AllLinesOk(lines, |lines|) && i <= j < |lines|
    ensures lines[i].Decoded? && lines[j].Decoded? && lines[i].record.elapsed <= lines[j].record.elapsed
    decreases j - i
  {
    LinesAreDecoded(lines, |lines|);
    if i < j {
      ElapsedGrows(lines, i, j - 1);
      assert LineOk(lines, j, Size(lines));
    }
  }

  /** A trace that passes the structural pass meets what the search relies on. */
  lemma ValidTraceIsOrdered(lines: seq<Line>)
    requires ValidTrace(lines)
    ensures forall i | 0 <= i < |lines| :: lines[i].Decoded?
    ensures Ordered(Records(lines))
  {
    LinesAreDecoded(lines, |lines|);
    var rs := Records(lines);
    forall i | 0 <= i < |rs|
      ensures rs[i].seqNo == i + 1 && (rs[i].kind.Snapshot? ==> rs[i].response == rs[i].elapsed)
    {
      assert LineOk(lines, i, Size(lines));
    }
    forall i, j | 0 <= i <= j < |rs| ensures rs[i].elapsed <= rs[j].elapsed {
      ElapsedGrows(lines, i, j);
    }
  }

  method FileSize(lines: seq<Line>) returns (bytes: nat)
    ensures bytes == Size(lines)
  {
    bytes := 0;
    for k := 0 to |lines|
      invariant bytes == Size(lines[..k])
    {
      assert lines[..k + 1][..k] == lines[..k];
      bytes := bytes + lines[k].size + 1;
    }
    assert lines[..|lines|] == lines;
  }

  /** The tests made on one line, given what the pass remembers of the lines before it. */
  predicate LineTests(lines: seq<Line>, k: nat, fileSize: int, seenRestart: bool, offset: int)
    requires k < |lines| && forall i | 0 <= i < k :: lines[i].Decoded?
  {
    && lines[k].Decoded? && 0 < lines[k].size <= MAX_LINE_BYTES
    && var r := lines[k].record;
    && r.seqNo == k + 1 && 0 <= r.elapsed && (0 < k ==> lines[k - 1].record.elapsed <= r.elapsed)
    && FieldsAllowed(r.kind, lines[k].fields)
    && (if k == 0 then HeaderOk(r, fileSize) else BodyOk(r, lines[0].record))
    && !(r.kind.PlaybackEnded? && seenRestart && r.lastRestart == 0)
    && (r.kind.Stopped? ==> k == |lines| - 1 && r.records == r.seqNo - 1 && r.bytes == offset)
  }

  lemma TestsAgree(lines: seq<Line>, k: nat)
    requires k < |lines| && forall i | 0 <= i < k :: lines[i].Decoded?
    ensures LineTests(lines, k, Size(lines), RestartSeen(lines[..k]), Size(lines[..k])) <==> LineOk(lines, k, Size(lines))
    ensures LineOk(lines, k, Size(lines)) ==> lines[k].Decoded?
  {
    hide HeaderOk, BodyOk, FieldsAllowed, Size, RestartSeen;
  }

  lemma NothingYet(lines: seq<Line>)
    ensures Size(lines[..0]) == 0 && !RestartSeen(lines[..0])
  {
  }

  /** The structural pass: one scan over the lines with three running values. */
  method CheckStructure(lines: seq<Line>) returns (records: Option<seq<Record>>)
    ensures records.Some? <==> ValidTrace(lines)
    ensures records.Some? ==> (forall i | 0 <= i < |lines| :: lines[i].Decoded?) && records.value == Records(lines)
  {
    hide LineOk, LineTests, HeaderOk, BodyOk, FieldsAllowed, Size, RestartSeen;
    NothingYet(lines);
    if |lines| < 2 { return None; }
    var fileSize := FileSize(lines);
    var read: seq<Record> := [];
    var offset := 0;
    var seenRestart := false;
    for k := 0 to |lines|
      invariant AllLinesOk(lines, k)
      invariant |read| == k && forall i | 0 <= i < k :: lines[i].Decoded? && read[i] == lines[i].record
      invariant offset == Size(lines[..k])
      invariant seenRestart <==> RestartSeen(lines[..k])
    {
      TestsAgree(lines, k);
      if !LineTests(lines, k, fileSize, seenRestart, offset) { return None; }
      RestartSeenStep(lines, k);
      SizeStep(lines, k);
      seenRestart := seenRestart || IsRestart(lines[k].record);
      read := read + [lines[k].record];
      offset := offset + lines[k].size + 1;
    }
    if !read[|read| - 1].kind.Stopped? { return None; }
    records := Some(read);
  }

  lemma SizeStep(lines: seq<Line>, k: nat)
    requires k < |lines|
    ensures Size(lines[..k + 1]) == Size(lines[..k]) + lines[k].size + 1
  {
    assert lines[..k + 1][..k] == lines[..k];
  }

  /** Verification of a whole file: structure first, then the search. */
  method VerifyTrace(lines: seq<Line>, terminated: bool) returns (result: Result<Verdict, VerifyError>)
    ensures result == Err(InvalidTrace) <==> !(terminated && ValidTrace(lines))
    ensures result == Err(NoCorrelation) ==>
      forall a: nat, b: nat, e: nat, i: nat, s: nat :: !Correlates(lines, a, b, e, i, s)
    ensures result.Ok? ==>
      exists a: nat, b: nat, e: nat, i: nat, s: nat ::
        Correlates(lines, a, b, e, i, s) && result.value == VerdictOf(Records(lines), a, b, e, i, s)
  {
    hide ValidTrace, Correlated;
    if !terminated { return Err(InvalidTrace); }
    var records := CheckStructure(lines);
    if records.None? { return Err(InvalidTrace); }
    ValidTraceIsOrdered(lines);
    NotEmpty(lines);
    var top := records.value[0].header;
    var verdict := FindCorrelation(records.value, top.a, top.b);
    if verdict.None? {
      assert forall a: nat, b: nat, e: nat, i: nat, s: nat :: !Correlates(lines, a, b, e, i, s);
      return Err(NoCorrelation);
    }
    ghost var a: nat, b: nat, e: nat :| Found(records.value, top.a, top.b, a, b, e, verdict.value);
    ghost var i: nat, s: nat := WitnessOf(records.value, top.a, top.b, a, b, e, verdict.value);
    assert Correlates(lines, a, b, e, i, s);
    result := Ok(verdict.value);
  }

  lemma WitnessOf(rs: seq<Record>, aName: string, bName: string, a: nat, b: nat, e: nat, v: Verdict)
    returns (i: nat, s: nat)
    requires Found(rs, aName, bName, a, b, e, v)
    ensures Correlated(rs, aName, bName, a, b, e, i, s) && a < b < e < i < s < |rs|
    ensures v == VerdictOf(rs, a, b, e, i, s)
  {
    i, s :| Correlated(rs, aName, bName, a, b, e, i, s) && v == VerdictOf(rs, a, b, e, i, s);
  }

  lemma NotEmpty(lines: seq<Line>)
    requires ValidTrace(lines)
    ensures lines != []
  {
  }

  lemma RestartSeenStep(lines: seq<Line>, k: nat)
    requires k < |lines| && lines[k].Decoded?
    ensures RestartSeen(lines[..k + 1]) <==> RestartSeen(lines[..k]) || IsRestart(lines[k].record)
  {
    var more, fewer := lines[..k + 1], lines[..k];
    assert more == fewer + [lines[k]];
    if RestartSeen(fewer) {
      var j :| 0 <= j < |fewer| && fewer[j].Decoded? && IsRestart(fewer[j].record);
      assert more[j] == fewer[j];
    }
    if IsRestart(lines[k].record) { assert more[k] == lines[k]; }
    if RestartSeen(more) {
      var j :| 0 <= j < |more| && more[j].Decoded? && IsRestart(more[j].record);
      if j < k { assert fewer[j] == more[j]; }
    }
  }

  /** The correlation, for the file names the header of the trace declares. */
  ghost predicate Correlates(lines: seq<Line>, a: nat, b: nat, e: nat, i: nat, s: nat) {
    && (forall k | 0 <= k < |lines| :: lines[k].Decoded?)
    && lines != []
    && Correlated(Records(lines), lines[0].record.header.a, lines[0].record.header.b, a, b, e, i, s)
  }
}
