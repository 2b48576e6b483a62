/**
 Progress tracking of one mandatory worker: an authoritative phase, a bounded
 array of token-bound scopes that hide it for a while, and a packed word that
 publishes the effective phase with a sequence number.
 */
module Liveness {
  import opened Results

  const SEQUENCE_SPAN: nat := 0x100_0000_0000_0000
  const MAX_SEQUENCE: nat := SEQUENCE_SPAN - 1
  const MAX_TOKEN: nat := 0xFFFF_FFFF_FFFF_FFFF
  const MAX_ACTIVE_SCOPES: nat := 16

  /** Phases are small codes: 0 is unknown, 1 to 10 are valid, the last four are special. */
  type Phase = code: nat | code < 256

  const UNKNOWN: Phase := 0
  const OPERATION: Phase := 2
  const MEDIA_COPY: Phase := 7
  const LIBRARY_SCAN: Phase := 10

  predicate ValidPhase(p: Phase) { 1 <= p <= LIBRARY_SCAN }

  predicate Special(p: Phase) { MEDIA_COPY <= p <= LIBRARY_SCAN }

  datatype Active = Active(token: nat, phase: Phase)

  const NO_SCOPE := Active(0, UNKNOWN)

  /** What a worker's state means: the published word taken apart, and the open scopes, oldest first. */
  datatype Tracker = Tracker(phase: Phase, sequence: nat, base: Phase, stack: seq<Active>, lastToken: nat)

  const FRESH: Tracker := Tracker(UNKNOWN, 0, UNKNOWN, [], 0)

  datatype Op =
    | Advance(phase: Phase)
    | Scope(phase: Phase)
    | Close(token: nat)
    | Checkpoint(token: nat, phase: Phase)

  function Published(t: Tracker, phase: Phase): Tracker {
    t.(phase := phase, sequence := Min(t.sequence + 1, MAX_SEQUENCE))
  }

  /** The phase to come back to: never unknown and never special. */
  function Plain(p: Phase): Phase { if ValidPhase(p) && !Special(p) then p else OPERATION }

  predicate CanOpen(t: Tracker, phase: Phase) {
    Special(phase) && |t.stack| < MAX_ACTIVE_SCOPES && t.lastToken < MAX_TOKEN
  }

  function Opened(t: Tracker, phase: Phase): Tracker {
    Published(t.(base := if t.stack == [] then Plain(t.phase) else t.base,
                 stack := t.stack + [Active(t.lastToken + 1, phase)], lastToken := t.lastToken + 1), phase)
  }

  /** The position of a token, or the length of the stack if it is not there. */
  function Find(stack: seq<Active>, token: nat): (k: nat)
    ensures k <= |stack|
    ensures k < |stack| ==> stack[k].token == token
    ensures forall i | 0 <= i < k :: stack[i].token != token
  {
    if stack == [] || stack[0].token == token then 0 else 1 + Find(stack[1..], token)
  }

  function Without(stack: seq<Active>, token: nat): seq<Active> {
    var k := Find(stack, token);
    if k == |stack| then stack else stack[..k] + stack[k + 1..]
  }

  predicate IsOpen(t: Tracker, token: nat) { exists a | a in t.stack :: a.token == token }

  /** The newest scope left takes over, or the base phase if there is none. */
  function Resumed(t: Tracker): Tracker {
    if t.stack == [] then Published(t.(base := UNKNOWN), t.base)
    else Published(t, t.stack[|t.stack| - 1].phase)
  }

  function Closed(t: Tracker, token: nat): Tracker {
    if !IsOpen(t, token) then t else Resumed(t.(stack := Without(t.stack, token)))
  }

  predicate IsTop(t: Tracker, token: nat, phase: Phase) {
    t.stack != [] && t.stack[|t.stack| - 1] == Active(token, phase)
  }

  /** A call that would panic, or that no longer has a say, changes nothing. */
  function Apply(t: Tracker, op: Op): Tracker {
    match op
    case Advance(phase) => if ValidPhase(phase) then Published(t.(stack := [], base := UNKNOWN), phase) else t
    case Scope(phase) => if CanOpen(t, phase) then Opened(t, phase) else t
    case Close(token) => if token == 0 then t else Closed(t, token)
    case Checkpoint(token, phase) => if token != 0 && IsTop(t, token, phase) then Published(t, phase) else t
  }

  function Run(ops: seq<Op>): Tracker
    decreases |ops|
  {
    if ops == [] then FRESH else Apply(Run(ops[..|ops| - 1]), ops[|ops| - 1])
  }

  // ---- The invariant ----

  /** Oldest first means smallest token first. */
  predicate Ordered(stack: seq<Active>, lastToken: nat) {
    && (forall i, j | 0 <= i < j < |stack| :: stack[i].token < stack[j].token)
    && (forall i | 0 <= i < |stack| :: 0 < stack[i].token <= lastToken && Special(stack[i].phase))
  }

  predicate Inv(t: Tracker) {
    && Ordered(t.stack, t.lastToken) && |t.stack| <= MAX_ACTIVE_SCOPES && t.lastToken <= MAX_TOKEN
    && t.sequence <= MAX_SEQUENCE && t.phase <= LIBRARY_SCAN
    && (if t.stack == [] then t.base == UNKNOWN
        else ValidPhase(t.base) && !Special(t.base) && t.phase == t.stack[|t.stack| - 1].phase)
  }

  lemma WithoutKeepsOrder(stack: seq<Active>, token: nat, lastToken: nat)
    requires Ordered(stack, lastToken)
    ensures Ordered(Without(stack, token), lastToken)
    ensures |stack| - 1 <= |Without(stack, token)| <= |stack|
  {
    hide Find;
    var k, rest := Find(stack, token), Without(stack, token);
    if k < |stack| {
      assert forall i | 0 <= i < |rest| :: rest[i] == if i < k then stack[i] else stack[i + 1];
    }
    hide Without;
  }

  lemma WithoutDropsOne(stack: seq<Active>, token: nat, lastToken: nat, a: Active)
    requires Ordered(stack, lastToken)
    ensures a in Without(stack, token) <==> a in stack && a.token != token
  {
    var k := Find(stack, token);
    if a in stack && a.token != token && k < |stack| {
      var i :| 0 <= i < |stack| && stack[i] == a;
      if i < k { assert stack[..k][i] == a; } else { assert stack[k + 1..][i - k - 1] == a; }
    }
  }

  lemma ApplyKeepsInv(t: Tracker, op: Op)
    requires Inv(t)
    ensures Inv(Apply(t, op))
  {
    if op.Close? {
      hide Without;
      WithoutKeepsOrder(t.stack, op.token, t.lastToken);
    }
  }

  lemma {:induction false} RunKeepsInv(ops: seq<Op>)
    ensures Inv(Run(ops))
    decreases |ops|
  {
    if ops != [] {
      RunKeepsInv(ops[..|ops| - 1]);
      ApplyKeepsInv(Run(ops[..|ops| - 1]), ops[|ops| - 1]);
    }
  }

  // ---- What the published phase means ----

  /** Operation `i` opened the scope with this token. */
  predicate Opens(ops: seq<Op>, i: nat, a: Active)
    requires i < |ops|
  {
    var t := Run(ops[..i]);
    ops[i] == Scope(a.phase) && CanOpen(t, a.phase) && a.token == t.lastToken + 1
  }

  predicate Ends(op: Op, token: nat) { (op.Advance? && ValidPhase(op.phase)) || op == Close(token) }

  /** The scope was opened, and neither closed nor overridden since. */
  predicate StillOpen(ops: seq<Op>, a: Active) {
    exists i :: 0 <= i < |ops| && Opens(ops, i, a) && forall j | i < j < |ops| :: !Ends(ops[j], a.token)
  }

  /** The phase of the last authoritative advance, made plain once a scope has hidden it. */
  function Base(ops: seq<Op>): Phase
    decreases |ops|
  {
    if ops == [] then UNKNOWN
    else
      var most, last := ops[..|ops| - 1], ops[|ops| - 1];
      match last
      case Advance(phase) => if ValidPhase(phase) then phase else Base(most)
      case Scope(phase) => if CanOpen(Run(most), phase) then Plain(Base(most)) else Base(most)
      case _ => Base(most)
  }

  lemma {:induction false} TokensGrow(ops: seq<Op>, i: nat)
    requires i <= |ops|
    ensures Run(ops[..i]).lastToken <= Run(ops).lastToken
    decreases |ops|
  {
    if i == |ops| {
      assert ops[..i] == ops;
    } else {
      assert ops[..|ops| - 1][..i] == ops[..i];
      TokensGrow(ops[..|ops| - 1], i);
    }
  }

  /** A token is handed out once. */
  lemma TokensAreUnique(ops: seq<Op>, i: nat, a: Active, k: nat, b: Active)
    requires i < |ops| && k < |ops| && Opens(ops, i, a) && Opens(ops, k, b)
    ensures a.token == b.token ==> i == k && a == b
  {
    if i < k {
      TokensGrow(ops[..k], i + 1);
      assert ops[..k][..i + 1] == ops[..i + 1] && ops[..i + 1][..i] == ops[..i];
    } else if k < i {
      TokensGrow(ops[..i], k + 1);
      assert ops[..i][..k + 1] == ops[..k + 1] && ops[..k + 1][..k] == ops[..k];
    }
  }

  lemma StillOpenLater(ops: seq<Op>, a: Active)
    requires ops != []
    requires var most, last := ops[..|ops| - 1], ops[|ops| - 1]; StillOpen(most, a) && !Ends(last, a.token)
    ensures StillOpen(ops, a)
  {
    var most := ops[..|ops| - 1];
    var i :| 0 <= i < |most| && Opens(most, i, a) && forall j | i < j < |most| :: !Ends(most[j], a.token);
    assert most[..i] == ops[..i];
    hide Opens, Ends;
    assert Opens(ops, i, a) by { OpensInPrefix(ops, i, a); }
    forall j | i < j < |ops| ensures !Ends(ops[j], a.token) {
      if j < |most| { assert ops[j] == most[j]; }
    }
  }

  lemma OpensInPrefix(ops: seq<Op>, i: nat, a: Active)
    requires ops != [] && i < |ops| - 1
    ensures Opens(ops[..|ops| - 1], i, a) <==> Opens(ops, i, a)
  {
    assert ops[..|ops| - 1][..i] == ops[..i];
  }

  lemma StillOpenEarlier(ops: seq<Op>, a: Active)
    requires ops != [] && StillOpen(ops, a) && !Opens(ops, |ops| - 1, a)
    ensures StillOpen(ops[..|ops| - 1], a) && !Ends(ops[|ops| - 1], a.token)
  {
    var most := ops[..|ops| - 1];
    hide Opens, Ends;
    var i :| 0 <= i < |ops| && Opens(ops, i, a) && forall j | i < j < |ops| :: !Ends(ops[j], a.token);
    OpensInPrefix(ops, i, a);
    assert !Ends(ops[|ops| - 1], a.token);
    forall j | i < j < |most| ensures !Ends(most[j], a.token) { assert most[j] == ops[j]; }
  }

  lemma StillOpenNow(ops: seq<Op>, a: Active)
    requires ops != [] && Opens(ops, |ops| - 1, a)
    ensures StillOpen(ops, a)
  {
  }

  lemma StillOpenStep(ops: seq<Op>, a: Active)
    requires ops != []
    ensures var most, last := ops[..|ops| - 1], ops[|ops| - 1];
      StillOpen(ops, a) <==> Opens(ops, |ops| - 1, a) || (StillOpen(most, a) && !Ends(last, a.token))
  {
    var most, last := ops[..|ops| - 1], ops[|ops| - 1];
    hide Opens, Ends, StillOpen;
    if Opens(ops, |ops| - 1, a) { StillOpenNow(ops, a); }
    else if StillOpen(ops, a) { StillOpenEarlier(ops, a); }
    else if StillOpen(most, a) && !Ends(last, a.token) { StillOpenLater(ops, a); }
  }

  /** What one operation does to the open scopes. */
  lemma StackStep(t: Tracker, op: Op, a: Active)
    requires Inv(t)
    ensures a in Apply(t, op).stack <==>
      (op == Scope(a.phase) && CanOpen(t, a.phase) && a.token == t.lastToken + 1) || (a in t.stack && !Ends(op, a.token))
  {
    if op.Close? {
      WithoutDropsOne(t.stack, op.token, t.lastToken, a);
      OpenTokensArePositive(t, a);
    }
  }

  /** The array holds exactly the scopes that are still open. */
  lemma {:induction false} StackHoldsOpenScopes(ops: seq<Op>)
    ensures forall a :: a in Run(ops).stack <==> StillOpen(ops, a)
    decreases |ops|
  {
    if ops != [] {
      var most := ops[..|ops| - 1];
      StackHoldsOpenScopes(most);
      RunKeepsInv(most);
      forall a ensures a in Run(ops).stack <==> StillOpen(ops, a) {
        StillOpenStep(ops, a);
        StackStep(Run(most), ops[|ops| - 1], a);
        hide Apply, StillOpen, Ends, CanOpen, Inv;
      }
    }
  }

  lemma OpenTokensArePositive(t: Tracker, a: Active)
    requires Inv(t)
    ensures a in t.stack ==> 0 < a.token <= t.lastToken
  {
  }

  lemma {:induction false} BaseIsKept(ops: seq<Op>)
    ensures var t := Run(ops); if t.stack == [] then t.phase == Base(ops) else t.base == Base(ops) == Plain(Base(ops))
    decreases |ops|
  {
    if ops != [] {
      BaseIsKept(ops[..|ops| - 1]);
    }
  }

  /** No scope still open was opened later. */
  ghost predicate Newest(ops: seq<Op>, a: Active) {
    StillOpen(ops, a) && forall b | StillOpen(ops, b) :: b.token <= a.token
  }

  lemma NewestIsUnique(ops: seq<Op>, a: Active, b: Active)
    requires Newest(ops, a) && Newest(ops, b)
    ensures a == b
  {
    var i :| 0 <= i < |ops| && Opens(ops, i, a) && forall j | i < j < |ops| :: !Ends(ops[j], a.token);
    var k :| 0 <= k < |ops| && Opens(ops, k, b) && forall j | k < j < |ops| :: !Ends(ops[j], b.token);
    hide Opens, Ends;
    TokensAreUnique(ops, i, a, k, b);
  }

  /**
   For any order of operations the published phase is that of the newest scope still
   open, and the base phase when none is.
   */
  lemma PublishedPhaseIsNewestOpen(ops: seq<Op>) returns (newest: Option<Active>)
    ensures newest.Some? ==> Newest(ops, newest.value) && Run(ops).phase == newest.value.phase
    ensures newest.None? ==> (forall a :: !StillOpen(ops, a)) && Run(ops).phase == Base(ops)
  {
    StackHoldsOpenScopes(ops);
    RunKeepsInv(ops);
    BaseIsKept(ops);
    hide StillOpen, Base, Run;
    var t := Run(ops);
    if t.stack == [] { return None; }
    var top := t.stack[|t.stack| - 1];
    assert top in t.stack;
    forall b | StillOpen(ops, b) ensures b.token <= top.token {
      assert b in t.stack;
    }
    newest := Some(top);
  }

  lemma {:induction false} BaseIsLastAdvance(ops: seq<Op>, i: nat, phase: Phase)
    requires i < |ops| && ops[i] == Advance(phase) && 1 <= phase <= 10
    requires forall j | i < j < |ops| && ops[j].Advance? :: ops[j].phase == 0 || 10 < ops[j].phase
    ensures Base(ops) == phase || (7 <= phase && Base(ops) == 2)
    decreases |ops|
  {
    if i < |ops| - 1 { BaseIsLastAdvance(ops[..|ops| - 1], i, phase); }
  }

  /**
   Once all long operations are over, the phase of the last valid advance is published again; if that phase was
   itself that of a long operation (7 to 10), plain operation (2) may be published instead.
   */
  lemma AdvancedPhaseReturns(ops: seq<Op>, i: nat, phase: Phase)
    requires i < |ops| && ops[i] == Advance(phase) && 1 <= phase <= 10
    requires forall j | i < j < |ops| && ops[j].Advance? :: ops[j].phase == 0 || 10 < ops[j].phase
    requires forall a :: !StillOpen(ops, a)
    ensures Run(ops).phase == phase || (7 <= phase && Run(ops).phase == 2)
  {
    BaseIsLastAdvance(ops, i, phase);
    var newest := PublishedPhaseIsNewestOpen(ops);
  }

  // ---- Handles that lost their say ----

  predicate Inert(t: Tracker, token: nat) { token <= t.lastToken && !IsOpen(t, token) }

  lemma InertStays(t: Tracker, op: Op, token: nat)
    requires Inv(t) && Inert(t, token)
    ensures Inert(Apply(t, op), token)
  {
    forall a | a in Apply(t, op).stack ensures a.token != token {
      StackStep(t, op, a);
    }
  }

  lemma {:induction false} InertForever(ops: seq<Op>, i: nat, token: nat)
    requires i <= |ops| && Inert(Run(ops[..i]), token)
    ensures Inert(Run(ops), token)
    decreases |ops|
  {
    if i == |ops| {
      assert ops[..i] == ops;
    } else {
      var most := ops[..|ops| - 1];
      assert most[..i] == ops[..i];
      InertForever(most, i, token);
      RunKeepsInv(most);
      InertStays(Run(most), ops[|ops| - 1], token);
    }
  }

  lemma EndMakesInert(t: Tracker, op: Op, token: nat)
    requires Inv(t) && token <= t.lastToken && Ends(op, token)
    ensures Inert(Apply(t, op), token)
  {
    forall a | a in Apply(t, op).stack ensures a.token != token {
      StackStep(t, op, a);
    }
  }

  lemma OpenedTokenIsIssued(ops: seq<Op>, i: nat, k: nat, a: Active)
    requires i < k <= |ops| && Opens(ops, i, a)
    ensures a.token <= Run(ops[..k]).lastToken
  {
    assert ops[..i + 1][..i] == ops[..i] && ops[..k][..i + 1] == ops[..i + 1];
    TokensGrow(ops[..k], i + 1);
  }

  /** Once a handle was closed, or overridden by an advance, nothing done through it changes the state again. */
  lemma {:induction false} EndedHandlesChangeNothing(ops: seq<Op>, i: nat, k: nat, a: Active, later: Op)
    requires i < k < |ops| && Opens(ops, i, a) && Ends(ops[k], a.token)
    requires later == Close(a.token) || later == Checkpoint(a.token, a.phase)
    ensures Apply(Run(ops), later) == Run(ops)
  {
    OpenedTokenIsIssued(ops, i, k, a);
    RunKeepsInv(ops[..k]);
    RunStep(ops, k);
    hide Run, Apply, Inert, Ends, Opens, Inv;
    EndMakesInert(Run(ops[..k]), ops[k], a.token);
    InertForever(ops, k + 1, a.token);
    InertMeansIdle(Run(ops), a.token, a.phase);
  }

  lemma RunStep(ops: seq<Op>, k: nat)
    requires k < |ops|
    ensures Run(ops[..k + 1]) == Apply(Run(ops[..k]), ops[k])
  {
    assert ops[..k + 1][..k] == ops[..k] && ops[..k + 1][k] == ops[k];
  }

  lemma InertMeansIdle(t: Tracker, token: nat, phase: Phase)
    requires Inert(t, token)
    ensures Apply(t, Close(token)) == t && Apply(t, Checkpoint(token, phase)) == t
  {
    if t.stack != [] { assert t.stack[|t.stack| - 1] in t.stack; }
  }

  // ---- The sequence ----

  /** The operation publishes: it counts as progress. */
  predicate Publishes(t: Tracker, op: Op) {
    match op
    case Advance(phase) => ValidPhase(phase)
    case Scope(phase) => CanOpen(t, phase)
    case Close(token) => token != 0 && IsOpen(t, token)
    case Checkpoint(token, phase) => token != 0 && IsTop(t, token, phase)
  }

  function Count(ops: seq<Op>): nat
    decreases |ops|
  {
    if ops == [] then 0
    else Count(ops[..|ops| - 1]) + (if Publishes(Run(ops[..|ops| - 1]), ops[|ops| - 1]) then 1 else 0)
  }

  /** The sequence counts publications and stops at its largest value instead of wrapping. */
  lemma {:induction false} SequenceCountsPublications(ops: seq<Op>)
    ensures Run(ops).sequence == Min(Count(ops), MAX_SEQUENCE)
    decreases |ops|
  {
    if ops != [] { SequenceCountsPublications(ops[..|ops| - 1]); }
  }

  /** It never moves backwards. */
  lemma {:induction false} SequenceNeverDecreases(ops: seq<Op>, i: nat)
    requires i <= |ops|
    ensures Run(ops[..i]).sequence <= Run(ops).sequence
    decreases |ops|
  {
    if i == |ops| {
      assert ops[..i] == ops;
    } else {
      var most := ops[..|ops| - 1];
      assert most[..i] == ops[..i];
      SequenceNeverDecreases(most, i);
      RunKeepsInv(most);
    }
  }
}
