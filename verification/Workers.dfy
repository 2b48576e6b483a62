/**
 The worker slots themselves: the packed word and the scope array updated in
 place, and the registry that binds and seals the five mandatory slots.
 */
module Workers {
  import opened Results
  import opened Liveness

  datatype WorkerID = Telegram | ObsReconnect | ObsEvents | Maintenance | Playback

  datatype Owner =
    | OwnerTelegram | OwnerObsReconnect | OwnerObsEvents | OwnerMaintenance | OwnerLibraryScheduler | OwnerUnknown

  const REQUIRED: seq<WorkerID> := [Telegram, ObsReconnect, ObsEvents, Maintenance, Playback]

  function OwnerOf(id: WorkerID): Owner {
    match id
    case Telegram => OwnerTelegram
    case ObsReconnect => OwnerObsReconnect
    case ObsEvents => OwnerObsEvents
    case Maintenance => OwnerMaintenance
    case Playback => OwnerLibraryScheduler
  }

  /** One observation of a worker. */
  datatype Snapshot = Snapshot(id: WorkerID, owner: Owner, phase: Phase, sequence: nat)

  datatype Handle = Handle(token: nat, phase: Phase)

  function Pack(phase: Phase, sequence: nat): nat { phase * SEQUENCE_SPAN + sequence }

  function PhaseOf(value: nat): nat { value / SEQUENCE_SPAN }

  function SequenceOf(value: nat): nat { value % SEQUENCE_SPAN }

  lemma PackedIsUnpacked(phase: Phase, sequence: nat)
    requires sequence <= MAX_SEQUENCE
    ensures PhaseOf(Pack(phase, sequence)) == phase && SequenceOf(Pack(phase, sequence)) == sequence
    ensures Pack(phase, sequence) <= MAX_TOKEN
  {
  }

  class WorkerState {
    const id: WorkerID
    const owner: Owner
    var value: nat
    var scopeBase: Phase
    var lastToken: nat
    const active: array<Active>
    var activeCount: nat

    constructor (id: WorkerID, owner: Owner)
      ensures this.id == id && this.owner == owner
      ensures Valid() && Contents() == FRESH && fresh(active)
    {
      this.id, this.owner := id, owner;
      value, scopeBase, lastToken, activeCount := 0, UNKNOWN, 0, 0;
      active := new Active[MAX_ACTIVE_SCOPES](_ => NO_SCOPE);
    }

    predicate Shape()
      reads this, active
    {
      && active.Length == MAX_ACTIVE_SCOPES && activeCount <= MAX_ACTIVE_SCOPES
      && value <= MAX_TOKEN
      && (forall i | activeCount <= i < active.Length :: active[i] == NO_SCOPE)
    }

    function Contents(): Tracker
      reads this, active
      requires Shape()
    {
      Tracker(PhaseOf(value), SequenceOf(value), scopeBase, active[..activeCount], lastToken)
    }

    predicate Valid()
      reads this, active
    {
      Shape() && Inv(Contents())
    }

    method Publish(phase: Phase) returns (sequence: nat)
      requires Shape()
      modifies this`value
      ensures Shape() && Contents() == Published(old(Contents()), phase) && sequence == Contents().sequence
    {
      sequence := SequenceOf(value);
      if sequence < MAX_SEQUENCE { sequence := sequence + 1; }
      PackedIsUnpacked(phase, sequence);
      value := Pack(phase, sequence);
    }

    /** An authoritative phase boundary: all scopes lose their say. Nothing is returned for an invalid phase. */
    method Advance(phase: Phase) returns (sequence: Option<nat>)
      requires Valid()
      modifies this, active
      ensures Valid() && Contents() == Apply(old(Contents()), Op.Advance(phase))
      ensures sequence == if ValidPhase(phase) then Some(Contents().sequence) else None
    {
      ghost var before := Contents();
      ApplyKeepsInv(before, Op.Advance(phase));
      if !ValidPhase(phase) { return None; }
      hide Inv, Pack, PhaseOf, SequenceOf, Published;
      for i := 0 to activeCount
        modifies active
        invariant forall k | 0 <= k < i :: active[k] == NO_SCOPE
        invariant forall k | activeCount <= k < active.Length :: active[k] == NO_SCOPE
      {
        active[i] := NO_SCOPE;
      }
      activeCount, scopeBase := 0, UNKNOWN;
      assert Contents() == before.(stack := [], base := UNKNOWN);
      var published := Publish(phase);
      sequence := Some(published);
    }

    /** Enters a long operation, or nothing if the phase is not special or the bound is reached. */
    method Scope(phase: Phase) returns (handle: Option<Handle>)
      requires Valid()
      modifies this, active
      ensures Valid() && Contents() == Apply(old(Contents()), Op.Scope(phase))
      ensures handle == if 7 <= phase <= 10 && old(activeCount) < 16 && old(lastToken) < MAX_TOKEN
                        then Some(Handle(old(lastToken) + 1, phase)) else None
    {
      ghost var before := Contents();
      ApplyKeepsInv(before, Op.Scope(phase));
      hide Inv, Pack, PhaseOf, SequenceOf, Published;
      if !Special(phase) || activeCount == active.Length || lastToken == MAX_TOKEN { return None; }
      Push(phase);
      var _ := Publish(phase);
      handle := Some(Handle(lastToken, phase));
    }

    /** Remembers the base phase under the first scope, and stacks the new one. */
    method Push(phase: Phase)
      requires Shape() && activeCount < MAX_ACTIVE_SCOPES
      modifies this`scopeBase, this`lastToken, this`activeCount, active
      ensures Shape() && lastToken == old(lastToken) + 1
      ensures var t := old(Contents());
        Contents() == t.(base := if t.stack == [] then Plain(t.phase) else t.base,
                         stack := t.stack + [Active(t.lastToken + 1, phase)], lastToken := t.lastToken + 1)
    {
      if activeCount == 0 {
        var base := PhaseOf(value);
        scopeBase := if !ValidPhase(base) || Special(base) then OPERATION else base;
      }
      lastToken := lastToken + 1;
      active[activeCount] := Active(lastToken, phase);
      activeCount := activeCount + 1;
      assert active[..activeCount] == old(active[..activeCount]) + [Active(lastToken, phase)];
    }

    /** Closes up the array over the closed scope; the newest scope left takes over. */
    method Close(handle: Handle)
      requires Valid()
      modifies this, active
      ensures Valid() && Contents() == Apply(old(Contents()), Op.Close(handle.token))
    {
      ghost var before := Contents();
      ApplyKeepsInv(before, Op.Close(handle.token));
      hide Inv, Pack, PhaseOf, SequenceOf, Published;
      hide IsOpen, Without, Resumed, Shape;
      if handle.token == 0 { return; }
      var found := Remove(handle.token);
      if found { Resume(); }
    }

    method Remove(token: nat) returns (found: bool)
      requires Shape()
      modifies this`activeCount, active
      ensures Shape() && found == IsOpen(old(Contents()), token)
      ensures found ==> Contents() == old(Contents()).(stack := Without(old(Contents()).stack, token))
      ensures !found ==> Contents() == old(Contents())
    {
      hide PhaseOf, SequenceOf, IsOpen, Find;
      ghost var stack := Contents().stack;
      var index := Locate(token);
      if index == activeCount { return false; }
      assert stack[..index] == active[..index] && stack[index + 1..] == active[index + 1..activeCount];
      Compact(index);
      assert active[..activeCount] == Without(stack, token);
      found := true;
    }

    method Resume()
      requires Shape()
      modifies this`scopeBase, this`value
      ensures Shape() && Contents() == Resumed(old(Contents()))
    {
      hide Pack, PhaseOf, SequenceOf, Published;
      var effective := scopeBase;
      if activeCount > 0 {
        effective := active[activeCount - 1].phase;
      } else {
        scopeBase := UNKNOWN;
      }
      assert Contents() == old(Contents()).(base := scopeBase);
      var _ := Publish(effective);
    }

    method Locate(token: nat) returns (index: nat)
      requires Shape()
      ensures index == Find(Contents().stack, token) <= activeCount
      ensures index < activeCount <==> IsOpen(Contents(), token)
    {
      index := 0;
      while index < activeCount && active[index].token != token
        invariant index <= activeCount
        invariant forall k | 0 <= k < index :: active[k].token != token
      {
        index := index + 1;
      }
      FoundAt(Contents(), token, index);
    }

    /** Moves the later scopes down over the one at `index` and blanks the slot that becomes free. */
    method Compact(index: nat)
      requires Shape() && index < activeCount
      modifies this`activeCount, active
      ensures Shape() && activeCount == old(activeCount) - 1
      ensures active[..activeCount] == old(active[..index]) + old(active[index + 1..activeCount])
    {
      ghost var stack := active[..];
      for k := index to activeCount - 1
        modifies active
        invariant forall i | index <= i < k :: active[i] == stack[i + 1]
        invariant forall i | 0 <= i < index || k <= i < active.Length :: active[i] == stack[i]
      {
        active[k] := active[k + 1];
      }
      activeCount := activeCount - 1;
      active[activeCount] := NO_SCOPE;
    }

    /** Completed work counts only while this very scope is the effective one. */
    method Checkpoint(handle: Handle) returns (sequence: nat)
      requires Valid()
      modifies this`value
      ensures Valid() && Contents() == Apply(old(Contents()), Op.Checkpoint(handle.token, handle.phase))
      ensures sequence == if handle.token == 0 then 0 else Contents().sequence
    {
      ApplyKeepsInv(Contents(), Op.Checkpoint(handle.token, handle.phase));
      hide Inv, Pack, Published;
      if handle.token == 0 { return 0; }
      sequence := SequenceOf(value);
      if activeCount == 0 { return; }
      var effective := active[activeCount - 1];
      if effective.token != handle.token || effective.phase != handle.phase { return; }
      sequence := Publish(handle.phase);
    }

    function Observe(): Snapshot
      reads this, active
      requires Valid()
    {
      Snapshot(id, owner, PhaseOf(value), SequenceOf(value))
    }
  }

  lemma FoundAt(t: Tracker, token: nat, index: nat)
    requires index <= |t.stack| && (forall k | 0 <= k < index :: t.stack[k].token != token)
    requires index < |t.stack| ==> t.stack[index].token == token
    ensures Find(t.stack, token) == index
    ensures IsOpen(t, token) <==> index < |t.stack|
  {
    if index < |t.stack| { assert t.stack[index] in t.stack; }
  }

  // ---- The registry ----

  datatype BindError = InvalidBinding | DuplicateBinding | IncompleteBinding | RegistrySealed

  class Registry {
    var workers: map<WorkerID, WorkerState>
    var isSealed: bool

    constructor ()
      ensures Valid() && workers == map[] && !isSealed
    {
      workers, isSealed := map[], false;
    }

    /** Every slot is claimed by its one owner, and a sealed registry has no free slot. */
    ghost predicate Valid()
      reads this, workers.Values, set w | w in workers.Values :: w.active
    {
      && (forall id | id in workers :: workers[id].id == id && workers[id].owner == OwnerOf(id) && workers[id].Valid())
      && (forall id, other | id in workers && other in workers && id != other ::
            workers[id] != workers[other] && workers[id].active != workers[other].active)
      && (isSealed ==> forall id :: id in workers)
    }

    method Bind(id: WorkerID, owner: Owner) returns (worker: Result<WorkerState, BindError>)
      requires Valid()
      modifies this`workers
      ensures Valid()
      ensures worker == Err(InvalidBinding) <==> owner != OwnerOf(id)
      ensures worker == Err(RegistrySealed) <==> owner == OwnerOf(id) && isSealed
      ensures worker == Err(DuplicateBinding) <==> owner == OwnerOf(id) && !isSealed && id in old(workers)
      ensures worker.Ok? ==>
        id !in old(workers) && workers == old(workers)[id := worker.value] && fresh(worker.value)
        && worker.value.Valid() && worker.value.Contents() == FRESH
      ensures worker.Err? ==> workers == old(workers) && worker.error != IncompleteBinding
    {
      hide WorkerState.Valid;
      if owner != OwnerOf(id) { return Err(InvalidBinding); }
      if isSealed { return Err(RegistrySealed); }
      if id in workers { return Err(DuplicateBinding); }
      var state := new WorkerState(id, owner);
      ghost var before := workers;
      workers := workers[id := state];
      forall other | other in workers
        ensures workers[other].id == other && workers[other].owner == OwnerOf(other) && workers[other].Valid()
      {
        if other != id { assert workers[other] == before[other]; }
      }
      worker := Ok(state);
    }

    method Seal() returns (err: Option<BindError>)
      requires Valid()
      modifies this`isSealed
      ensures Valid()
      ensures err == Some(RegistrySealed) <==> old(isSealed)
      ensures err == Some(IncompleteBinding) <==> !old(isSealed) && exists id :: id !in workers
      ensures err.None? <==> !old(isSealed) && isSealed
      ensures err.Some? ==> isSealed == old(isSealed) && err.value != DuplicateBinding
    {
      hide WorkerState.Valid;
      if isSealed { return Some(RegistrySealed); }
      for i := 0 to |REQUIRED|
        invariant forall id | id in REQUIRED[..i] :: id in workers
      {
        if REQUIRED[i] !in workers { return Some(IncompleteBinding); }
      }
      forall id: WorkerID ensures id in workers { assert id in REQUIRED[..|REQUIRED|] by { AllRequired(id); } }
      if workers[Playback].owner != OwnerLibraryScheduler { return Some(InvalidBinding); }
      isSealed := true;
      err := None;
    }

    /** An operation on one worker leaves the whole registry valid. */
    twostate lemma WorkersActAlone(id: WorkerID)
      requires old(Valid()) && unchanged(this) && id in workers && workers[id].Valid()
      requires forall other | other in workers && other != id :: unchanged(workers[other], workers[other].active)
      ensures Valid()
    {
      forall other | other in workers ensures workers[other].Valid() {
        if other != id { assert old(workers[other].Valid()); }
      }
    }

    /** What one slot shows: its worker, or nothing but its name while it is free. */
    ghost function Slot(id: WorkerID): Snapshot
      requires Valid()
      reads this, workers.Values, set w | w in workers.Values :: w.active
    {
      if id in workers then workers[id].Observe() else Snapshot(id, OwnerUnknown, UNKNOWN, 0)
    }

    /** What the five slots show right now, in wire order. */
    ghost function Observed(): seq<Snapshot>
      requires Valid()
      reads this, workers.Values, set w | w in workers.Values :: w.active
    {
      [Slot(Telegram), Slot(ObsReconnect), Slot(ObsEvents), Slot(Maintenance), Slot(Playback)]
    }

    /** Always five entries, in wire order, with values in range; an entry has its owner exactly if its slot is bound. */
    method Snapshots() returns (snapshots: seq<Snapshot>)
      requires Valid()
      ensures snapshots == Observed() && |snapshots| == |REQUIRED|
      ensures forall i | 0 <= i < |snapshots| ::
        && snapshots[i].id == REQUIRED[i] && (snapshots[i].owner == OwnerOf(REQUIRED[i]) <==> REQUIRED[i] in workers)
        && snapshots[i].phase <= LIBRARY_SCAN && snapshots[i].sequence <= MAX_SEQUENCE
    {
      hide Ordered;
      snapshots := [];
      for i := 0 to |REQUIRED|
        invariant |snapshots| == i && snapshots == Observed()[..i]
        invariant forall k | 0 <= k < i ::
          && snapshots[k].id == REQUIRED[k] && (snapshots[k].owner == OwnerOf(REQUIRED[k]) <==> REQUIRED[k] in workers)
          && snapshots[k].phase <= LIBRARY_SCAN && snapshots[k].sequence <= MAX_SEQUENCE
      {
        assert Observed()[i] == Slot(REQUIRED[i]);
        var snapshot := Snapshot(REQUIRED[i], OwnerUnknown, UNKNOWN, 0);
        if REQUIRED[i] in workers { snapshot := workers[REQUIRED[i]].Observe(); }
        snapshots := snapshots + [snapshot];
      }
    }
  }

  lemma AllRequired(id: WorkerID)
    ensures id in REQUIRED[..|REQUIRED|]
  {
    var k := match id case Telegram => 0 case ObsReconnect => 1 case ObsEvents => 2 case Maintenance => 3 case Playback => 4;
    assert REQUIRED[k] == id;
    assert REQUIRED[..|REQUIRED|][k] == id;
  }
}
