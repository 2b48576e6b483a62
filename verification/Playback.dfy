/**
 The playback scheduler: it picks a loop for the current period, tries candidates
 against OBS, quarantines those that fail, rolls everything back when none works,
 and never leaves a loop of an ended period playing.
 */
module Playback {
  import opened Results
  import opened Periods
  import opened LibraryState
  import opened Selection
  import opened Obs

  const MAX_CANDIDATES: nat := 8

  /** What `errors.Is` can find in a returned error; no flag means no error. */
  datatype Flag =
    | Unhealthy | PlayFailed | Mutated | CleanupFailed | Cancelled | StopFailed | MusicStopFailed
    | StoreFailed | RestoreFailed | NoCandidates

  type Errors = set<Flag>

  /** Identity, size and modification time of a regular file. */
  type Stamp = nat

  datatype ActiveLoop = ActiveLoop(id: string, path: string, theme: string, period: Option<Period>, endsAt: int)

  const NO_LOOP := ActiveLoop("", "", "", None, 0)
  const NO_MUSIC := Music("", "")

  /** The selection an activation starts from, cleaned of entries it must not revive. */
  datatype Snapshot = Snapshot(override: Override, plan: Option<Plan>)

  function SnapshotAt(db: Db, lib: Library, blocked: set<string>, t: int): Snapshot {
    var override := OverrideAt(db, DateOf(t));
    var plan := PlanAt(db, KeyAt(t));
    var loop := if plan.Some? then FindLoop(lib.loops, blocked, plan.value.loopID) else None;
    Snapshot(
      if override.direct != "" && FindLoop(lib.loops, blocked, override.direct).None?
      then override.(direct := "") else override,
      if loop.Some? && loop.value.period == PeriodAt(t) && !Expires(db, t) then plan else None)
  }

  /**
   What a snapshot of the selection keeps: the theme; the direct loop if it is healthy; and the plan if it
   leads to a healthy loop of the period and no order of the day before is about to lapse.
   */
  ghost predicate SelectionKept(db: Db, lib: Library, blocked: set<string>, t: int, override: Override, plan: Option<Plan>) {
    var o, p := OverrideAt(db, DateOf(t)), PlanAt(db, KeyAt(t));
    && override.theme == o.theme
    && override.direct == (if Healthy(lib, blocked, o.direct) then o.direct else "")
    && plan == if !StaleOrder(db, t) && p.Some? && (exists l | l in lib.loops ::
                    l.id == p.value.loopID && l.path !in blocked && l.period == PeriodAt(t))
               then p else None
  }

  lemma SnapshotKeepsSelection(db: Db, lib: Library, blocked: set<string>, t: int)
    requires LibraryOk(lib)
    ensures var s := SnapshotAt(db, lib, blocked, t); SelectionKept(db, lib, blocked, t, s.override, s.plan)
  {
    var o, p := OverrideAt(db, DateOf(t)), PlanAt(db, KeyAt(t));
    StaleOrderExpires(db, t);
    HealthyIsFound(lib, blocked, o.direct);
    if p.Some? { FindLoopFinds(lib.loops, blocked, p.value.loopID); }
    hide StaleOrder, Expires, FindLoop;
  }

  /** All a pick for `t` may change: its own plan, a lapsed direct override, and the override of the day before. */
  ghost predicate Touches(before: Db, after: Db, t: int) {
    && after.lastMusic == before.lastMusic
    && (forall key :: key != KeyAt(t) ==> PlanAt(after, key) == PlanAt(before, key))
    && (forall date :: date != DateOf(t) && (EarlyNight(t) ==> date != PlanDate(t)) ==>
          OverrideAt(after, date) == OverrideAt(before, date))
    && (OverrideAt(after, DateOf(t)) == OverrideAt(before, DateOf(t))
        || OverrideAt(after, DateOf(t)) == OverrideAt(before, DateOf(t)).(direct := ""))
    && (EarlyNight(t) ==> OverrideAt(after, PlanDate(t)) in {OverrideAt(before, PlanDate(t)), NO_OVERRIDE})
  }

  /** The database after a failed activation was undone. */
  ghost predicate RolledBack(before: Db, after: Db, t: int, selection: Snapshot) {
    && OverrideAt(after, DateOf(t)) == selection.override && PlanAt(after, KeyAt(t)) == selection.plan
    && after.lastMusic == before.lastMusic
    && (forall key :: key != KeyAt(t) ==> PlanAt(after, key) == PlanAt(before, key))
    && (forall date :: date != DateOf(t) && (EarlyNight(t) ==> date != PlanDate(t)) ==>
          OverrideAt(after, date) == OverrideAt(before, date))
    && (EarlyNight(t) ==> OverrideAt(after, PlanDate(t)) in {OverrideAt(before, PlanDate(t)), NO_OVERRIDE})
  }

  lemma RestoreRollsBack(before: Db, db: Db, after: Db, t: int, selection: Snapshot)
    requires Touches(before, db, t)
    requires after == Restored(db, DateOf(t), selection.override, KeyAt(t), selection.plan)
    ensures RolledBack(before, after, t, selection)
  {
  }

  lemma RolledBackPutsBack(before: Db, after: Db, t: int, selection: Snapshot)
    requires RolledBack(before, after, t, selection)
    ensures OverrideAt(after, DateOf(t)) == selection.override && PlanAt(after, KeyAt(t)) == selection.plan
  {
  }

  /** A plan put back, or left in place because putting it back failed, fits as it did before. */
  lemma UndoneFits(before: Db, db: Db, after: Db, lib: Library, blocked: set<string>, t: int, selection: Snapshot, ok: bool)
    requires PlanFits(before, lib, t) && PlanFits(db, lib, t)
    requires SelectionKept(before, lib, blocked, t, selection.override, selection.plan)
    requires Settles(db, Restored(db, DateOf(t), selection.override, KeyAt(t), selection.plan), after, ok)
    ensures PlanFits(after, lib, t)
  {
    hide Healthy, StaleOrder, KeyAt, PeriodAt;
  }

  lemma TouchesKeepsMusic(before: Db, after: Db, t: int)
    requires Touches(before, after, t)
    ensures after.lastMusic == before.lastMusic
  {
  }

  lemma TouchesChain(before: Db, db: Db, after: Db, t: int)
    requires Touches(before, db, t) && Touches(db, after, t)
    ensures Touches(before, after, t)
  {
  }

  lemma TouchesSettled(before: Db, intended: Db, after: Db, ok: bool, t: int)
    requires Touches(before, intended, t) && Settles(before, intended, after, ok)
    ensures Touches(before, after, t)
  {
  }

  lemma ClearingTouches(db: Db, t: int)
    ensures Touches(db, db, t) && Touches(db, ClearedDirect(db, DateOf(t)), t) && Touches(db, ClearedPlan(db, KeyAt(t)), t)
    ensures EarlyNight(t) ==> Touches(db, ClearedBoth(db, PlanDate(t), KeyAt(t)), t)
  {
  }

  lemma SavingTouches(db: Db, t: int, plan: Plan)
    ensures Touches(db, Saved(db, KeyAt(t), plan), t)
  {
  }

  function Paths(s: seq<string>): set<string> { set path | path in s }

  predicate NoRepeats(s: seq<string>) { forall i, j | 0 <= i < j < |s| :: s[i] != s[j] }

  function AttemptLimit(count: nat): nat {
    if count == 0 then 1 else Min(count, MAX_CANDIDATES)
  }

  class Service {
    const obs: Client
    const store: StateStore
    var library: Library
    /** The files that can be read right now. */
    var files: map<string, Stamp>
    var loop: ActiveLoop
    var music: Music
    var pendingLast: string
    var quarantine: map<string, Option<Stamp>>
    /** The track most recently started. */
    ghost var lastStarted: string
    /** Every asset found unfit when it was about to be played. */
    ghost var refusals: seq<string>
    /** How often a rotation was broken off because OBS was gone or time was up. */
    ghost var interruptions: nat

    constructor (obs: Client, store: StateStore, library: Library, files: map<string, Stamp>)
      requires LibraryOk(library)
      ensures Valid() && this.obs == obs && this.store == store && this.library == library
      ensures loop == NO_LOOP && music == NO_MUSIC && quarantine == map[]
    {
      this.obs, this.store, this.library, this.files := obs, store, library, files;
      loop, music, pendingLast, quarantine, lastStarted := NO_LOOP, NO_MUSIC, "", map[], store.lastMusic;
      refusals, interruptions := [], 0;
    }

    /** What is recorded as active is what its source was last given. */
    ghost predicate Valid()
      reads this, obs, store
    {
      && LibraryOk(library)
      && (if loop.path == "" then loop == NO_LOOP else obs.loop.file == loop.path)
      && (if music.path == "" then music == NO_MUSIC
          else obs.music.file == music.path && music.id != "" && music.id == lastStarted)
      && lastStarted == (if pendingLast != "" then pendingLast else store.lastMusic)
    }

    /** The active loop belongs to the period of `now` and has not ended. */
    predicate Current(now: int)
      reads this
    {
      loop.path != "" && loop.period == Some(PeriodAt(now)) && now < loop.endsAt
    }

    // ---- Quarantine ----

    /** An entry blocks its path until the file is seen to have changed. */
    function Blocked(): set<string>
      reads this`quarantine, this`files
    {
      set path | path in quarantine && (path in files ==> quarantine[path] == Some(files[path]))
    }

    /** Looking up a path drops its entry if the file changed since. */
    method QuarantineReason(path: string) returns (blocked: bool)
      modifies this`quarantine
      ensures blocked <==> path in Blocked()
      ensures Blocked() == old(Blocked())
    {
      if path !in quarantine { return false; }
      if path in files && quarantine[path] != Some(files[path]) {
        quarantine := quarantine - {path};
        return false;
      }
      blocked := true;
    }

    method QuarantineAsset(path: string)
      modifies this`quarantine
      ensures Blocked() == old(Blocked()) + {path}
      ensures old(Valid()) ==> Valid()
    {
      quarantine := quarantine[path := if path in files then Some(files[path]) else None];
    }

    method Release(path: string)
      modifies this`quarantine
      ensures Blocked() == old(Blocked()) - {path}
    {
      quarantine := quarantine - {path};
    }

    /** Whether an asset may be handed to OBS: not quarantined, present, and found sound by the media probe. */
    method EnsurePlayable(path: string) returns (err: Errors)
      modifies this`quarantine, this`refusals
      ensures err in {{}, {Unhealthy}, {Cancelled}}
      ensures refusals == old(refusals) + (if Unhealthy in err then [path] else [])
      ensures Blocked() == if Unhealthy in err then old(Blocked()) + {path} else old(Blocked())
      ensures err == {} ==> path !in Blocked() && path in files
    {
      var blocked := QuarantineReason(path);
      if blocked {
        refusals := refusals + [path];
        return {Unhealthy};
      }
      if path !in files {
        QuarantineAsset(path);
        refusals := refusals + [path];
        return {Unhealthy};
      }
      if
      case true => err := {};
      case true => err := {Cancelled};
      case true =>
        QuarantineAsset(path);
        refusals := refusals + [path];
        err := {Unhealthy};
    }

    method FindLoopByID(id: string) returns (found: Option<Loop>)
      modifies this`quarantine
      ensures Blocked() == old(Blocked()) && found == FindLoop(library.loops, Blocked(), id)
    {
      ghost var blockedPaths := Blocked();
      var i := 0;
      while i < |library.loops|
        invariant i <= |library.loops| && Blocked() == blockedPaths
        invariant FindLoop(library.loops, blockedPaths, id) == FindLoop(library.loops[i..], blockedPaths, id)
      {
        if library.loops[i].id == id {
          var blocked := QuarantineReason(library.loops[i].path);
          if !blocked { return Some(library.loops[i]); }
        }
        i := i + 1;
      }
      found := None;
    }

    method FindMusicByID(id: string) returns (found: Option<Music>)
      modifies this`quarantine
      ensures Blocked() == old(Blocked())
      ensures found.Some? ==> found.value in library.music && found.value.id == id && found.value.path !in Blocked()
      ensures found.None? ==> forall m | m in library.music && m.id == id :: m.path in Blocked()
    {
      ghost var blockedPaths := Blocked();
      for i := 0 to |library.music|
        invariant Blocked() == blockedPaths
        invariant forall m | m in library.music[..i] && m.id == id :: m.path in blockedPaths
      {
        if library.music[i].id == id {
          var blocked := QuarantineReason(library.music[i].path);
          if !blocked { return Some(library.music[i]); }
        }
      }
      found := None;
    }

    method PlayableLibrary() returns (playable: Library)
      modifies this`quarantine
      ensures Blocked() == old(Blocked()) && Filters(library, Blocked(), playable)
    {
      ghost var blockedPaths := Blocked();
      var loops: seq<Loop>, music: seq<Music> := [], [];
      for i := 0 to |library.loops|
        invariant Blocked() == blockedPaths
        invariant forall l :: l in loops <==> l in library.loops[..i] && l.path !in blockedPaths
      {
        var blocked := QuarantineReason(library.loops[i].path);
        if !blocked { loops := loops + [library.loops[i]]; }
      }
      for i := 0 to |library.music|
        invariant Blocked() == blockedPaths
        invariant forall m :: m in music <==> m in library.music[..i] && m.path !in blockedPaths
      {
        var blocked := QuarantineReason(library.music[i].path);
        if !blocked { music := music + [library.music[i]]; }
      }
      playable := Library(loops, music);
    }

    // ---- The choice for an instant ----

    method CanReusePeriodPlan(period: Period, overrideTheme: string, planTheme: string) returns (reusable: bool)
      modifies this`quarantine
      ensures Blocked() == old(Blocked())
      ensures reusable == CanReuse(library, Blocked(), period, overrideTheme, planTheme)
    {
      if overrideTheme == "" || overrideTheme == planTheme { return true; }
      var playable := PlayableLibrary();
      for i := 0 to |playable.loops|
        invariant forall l | l in playable.loops[..i] :: l.period != period || l.theme != overrideTheme
      {
        if playable.loops[i].period == period && playable.loops[i].theme == overrideTheme {
          assert playable.loops[i] in playable.loops;
          return false;
        }
      }
      assert playable.loops[..|playable.loops|] == playable.loops;
      reusable := true;
    }

    method ChooseForPlan(period: Period, preferred: string) returns (choice: Option<Loop>)
      modifies this`quarantine
      ensures Blocked() == old(Blocked()) && Suitable(library, Blocked(), period, preferred, choice)
    {
      var playable := PlayableLibrary();
      choice := ChooseForPeriod(playable, period, preferred);
      FilteredChoice(library, Blocked(), playable, period, preferred, choice);
    }

    /** Ends the override of the day before, together with the plan it led to. */
    method ExpirePreviousOverride(t: int) returns (expired: Option<bool>)
      modifies store
      ensures Touches(old(store.Contents()), store.Contents(), t)
      ensures store.faults == old(store.faults) <==> expired.Some?
      ensures old(store.faults) <= store.faults
      ensures expired.Some? ==> expired.value == Expires(old(store.Contents()), t)
      ensures store.plans in {old(store.plans), old(store.plans) - {KeyAt(t)}}
      ensures expired.Some? ==>
        store.Contents() == (if expired.value then ClearedBoth(old(store.Contents()), PlanDate(t), KeyAt(t))
                             else old(store.Contents()))
    {
      ghost var before := store.Contents();
      ClearingTouches(before, t);
      if !EarlyNight(t) { return Some(false); }
      var previous := store.OverrideFor(PlanDate(t));
      if previous.None? { return None; }
      if previous.value.theme == "" && previous.value.direct == "" { return Some(false); }
      var ok := store.ClearOverrideAndPeriodPlan(PlanDate(t), KeyAt(t));
      TouchesSettled(before, ClearedBoth(before, PlanDate(t), KeyAt(t)), store.Contents(), ok, t);
      expired := if ok then Some(true) else None;
    }

    /** The planned loop, or a fresh choice that becomes the plan. */
    method PickFromPlan(t: int, theme: string, mayReuse: bool)
        returns (found: Option<Loop>, err: Errors, ghost choice: Option<Loop>)
      requires LibraryOk(library)
      modifies this`quarantine, store
      ensures Blocked() == old(Blocked())
      ensures err == {} <==> found.Some?
      ensures err <= {StoreFailed, NoCandidates}
      ensures found.Some? ==> Playable(library, Blocked(), found.value)
      ensures Touches(old(store.Contents()), store.Contents(), t)
      ensures old(store.faults) <= store.faults
      ensures found.None? && store.faults == old(store.faults) ==> !Covers(library, Blocked(), PeriodAt(t))
      ensures old(PlanFits(store.Contents(), library, t)) ==>
        PlanFits(store.Contents(), library, t) && (found.Some? ==> found.value.period == PeriodAt(t))
      ensures store.faults == old(store.faults) ==>
        && Suitable(library, Blocked(), PeriodAt(t), theme, choice)
        && Pick(found, store.Contents())
           == PickPlanned(old(store.Contents()), library, Blocked(), KeyAt(t), theme, mayReuse, choice)
    {
      hide Touches, Suitable, CanReuse;
      ghost var before := store.Contents();
      ClearingTouches(before, t);
      choice := None;
      var plan := store.PeriodPlan(KeyAt(t));
      if plan.None? { return None, {StoreFailed}, None; }
      if plan.value.Some? && mayReuse {
        var reusable := CanReusePeriodPlan(PeriodAt(t), theme, plan.value.value.theme);
        if reusable {
          found := FindLoopByID(plan.value.value.loopID);
          FindLoopFinds(library.loops, Blocked(), plan.value.value.loopID);
          if found.Some? {
            choice := SomeSuitable(library, Blocked(), PeriodAt(t), theme);
            return found, {}, choice;
          }
          var ok := store.ClearPeriodPlan(KeyAt(t));
          TouchesSettled(before, ClearedPlan(before, KeyAt(t)), store.Contents(), ok, t);
        }
      }
      ghost var cleared := store.Contents();
      var drawn := ChooseForPlan(PeriodAt(t), theme);
      choice := drawn;
      if drawn.None? {
        NothingSuitable(library, Blocked(), PeriodAt(t), theme);
        return None, {NoCandidates}, None;
      }
      SuitableIsPlayable(library, Blocked(), PeriodAt(t), theme, choice);
      var chosen := Plan(drawn.value.theme, drawn.value.id);
      var saved := store.SavePeriodPlan(KeyAt(t), chosen);
      SavingTouches(cleared, t, chosen);
      TouchesSettled(cleared, Saved(cleared, KeyAt(t), chosen), store.Contents(), saved, t);
      TouchesChain(before, cleared, store.Contents(), t);
      if !saved { return None, {StoreFailed}, choice; }
      found, err := drawn, {};
    }

    /** Clears a direct override whose loop is gone, and the plan if a new one is demanded; failures are ignored. */
    method ClearLapsed(t: int, lapsed: bool, force: bool)
      modifies store
      ensures Touches(old(store.Contents()), store.Contents(), t) && old(store.faults) <= store.faults
      ensures store.plans in {old(store.plans), old(store.plans) - {KeyAt(t)}}
      ensures store.faults == old(store.faults) ==>
        var cleared := if lapsed then ClearedDirect(old(store.Contents()), DateOf(t)) else old(store.Contents());
        store.Contents() == if force then ClearedPlan(cleared, KeyAt(t)) else cleared
    {
      hide Touches, KeyAt;
      ghost var before := store.Contents();
      ClearingTouches(before, t);
      if lapsed {
        var cleared := store.ClearDirectLoopOverride(DateOf(t));
        TouchesSettled(before, ClearedDirect(before, DateOf(t)), store.Contents(), cleared, t);
      }
      ghost var current := store.Contents();
      if force {
        var cleared := store.ClearPeriodPlan(KeyAt(t));
        ClearingTouches(current, t);
        TouchesSettled(current, ClearedPlan(current, KeyAt(t)), store.Contents(), cleared, t);
        TouchesChain(before, current, store.Contents(), t);
      }
    }

    /** The loop for an instant: a direct override, else the plan, else a fresh choice. */
    method LoopForTime(t: int, force: bool) returns (found: Option<Loop>, err: Errors, ghost choice: Option<Loop>)
      requires LibraryOk(library)
      modifies this`quarantine, store
      ensures Blocked() == old(Blocked())
      ensures err == {} <==> found.Some?
      ensures err <= {StoreFailed, NoCandidates}
      ensures found.Some? ==> Playable(library, Blocked(), found.value)
      ensures Touches(old(store.Contents()), store.Contents(), t)
      ensures old(store.faults) <= store.faults
      ensures found.None? && store.faults == old(store.faults) ==> !Covers(library, Blocked(), PeriodAt(t))
      ensures old(PlanFits(store.Contents(), library, t)) ==>
        && PlanFits(store.Contents(), library, t)
        && (found.Some? ==> Belongs(old(store.Contents()), t, found.value))
      ensures store.faults == old(store.faults) ==>
        && Suitable(library, Blocked(), PeriodAt(t), OverrideAt(old(store.Contents()), DateOf(t)).theme, choice)
        && Pick(found, store.Contents()) == PickAt(old(store.Contents()), library, Blocked(), t, force, choice)
    {
      hide Touches, Suitable, PickPlanned, LibraryOk, Blocked, KeyAt;
      ghost var before := store.Contents();
      ClearingTouches(before, t);
      var override := store.OverrideFor(DateOf(t));
      if override.None? { return None, {StoreFailed}, None; }
      var expired := ExpirePreviousOverride(t);
      if expired.None? { return None, {StoreFailed}, None; }
      ghost var current := store.Contents();
      if override.value.direct != "" {
        found := FindLoopByID(override.value.direct);
        FindLoopFinds(library.loops, Blocked(), override.value.direct);
        if found.Some? {
          choice := SomeSuitable(library, Blocked(), PeriodAt(t), override.value.theme);
          return found, {}, choice;
        }
      }
      ClearLapsed(t, override.value.direct != "", force);
      TouchesChain(before, current, store.Contents(), t);
      ghost var forced := store.Contents();
      found, err, choice := PickFromPlan(t, override.value.theme, !force && !expired.value);
      TouchesChain(before, forced, store.Contents(), t);
    }

    method CaptureSelection(t: int) returns (selection: Option<Snapshot>)
      modifies this`quarantine, store
      ensures Blocked() == old(Blocked()) && store.Contents() == old(store.Contents())
      ensures selection.Some? ==> selection.value == SnapshotAt(store.Contents(), library, Blocked(), t)
      ensures selection.Some? && LibraryOk(library) ==>
        SelectionKept(store.Contents(), library, Blocked(), t, selection.value.override, selection.value.plan)
      ensures if selection.Some? then store.faults == old(store.faults) else old(store.faults) < store.faults
    {
      var override := store.OverrideFor(DateOf(t));
      if override.None? { return None; }
      var kept := override.value;
      if kept.direct != "" {
        var direct := FindLoopByID(kept.direct);
        if direct.None? { kept := kept.(direct := ""); }
      }
      var plan := store.PeriodPlan(KeyAt(t));
      if plan.None? { return None; }
      var keptPlan := plan.value;
      if keptPlan.Some? {
        var planned := FindLoopByID(keptPlan.value.loopID);
        if planned.None? || planned.value.period != PeriodAt(t) { keptPlan := None; }
      }
      if EarlyNight(t) {
        var previous := store.OverrideFor(PlanDate(t));
        if previous.None? { return None; }
        if previous.value.theme != "" || previous.value.direct != "" { keptPlan := None; }
      }
      selection := Some(Snapshot(kept, keptPlan));
      if LibraryOk(library) { SnapshotKeepsSelection(store.Contents(), library, Blocked(), t); }
      hide SelectionKept;
    }

    // ---- Driving OBS ----

    method ClearActive(role: Role)
      modifies this`loop, this`music
      ensures if role.LoopRole? then loop == NO_LOOP && music == old(music) else music == NO_MUSIC && loop == old(loop)
    {
      if role.LoopRole? { loop := NO_LOOP; } else { music := NO_MUSIC; }
    }

    /** Gives a source a file; if the request may have been applied in part, the source is stopped again. */
    method PlayOBSFile(role: Role, path: string) returns (err: Errors)
      modifies this`loop, this`music, obs
      ensures err <= {PlayFailed, Mutated, CleanupFailed, Cancelled}
      ensures obs.given == old(obs.given) + Handed(role, if err == {Cancelled} then [] else [path])
      ensures forall other :: other != role ==> obs.At(other) == old(obs.At(other))
      ensures err == {} ==> obs.At(role) == Source(path, true) && loop == old(loop) && music == old(music)
      ensures Mutated in err ==>
        && (if role.LoopRole? then loop == NO_LOOP && music == old(music) else music == NO_MUSIC && loop == old(loop))
        && (CleanupFailed !in err ==> !obs.At(role).running)
      ensures err != {} && Mutated !in err ==>
        obs.At(role) == old(obs.At(role)) && loop == old(loop) && music == old(music) && CleanupFailed !in err
      ensures path != "" && obs.unanswered == old(obs.unanswered) ==> err <= {Cancelled}
      ensures old(obs.unanswered) <= obs.unanswered
    {
      if * { return {Cancelled}; }
      var outcome := obs.PlaySourceFile(role, path);
      if outcome.Sent? { return {}; }
      err := {PlayFailed};
      if * { err := err + {Cancelled}; }
      if outcome.Untouched? { return; }
      err := err + {Mutated};
      var stopped := obs.StopSource(role);
      ClearActive(role);
      if !stopped { err := err + {CleanupFailed}; }
    }

    method PlayLibraryLoop(l: Loop, t: int) returns (err: Errors)
      requires Valid() && l.path != ""
      modifies this`loop, this`music, this`quarantine, this`refusals, obs
      ensures Valid() && music == old(music) && obs.music == old(obs.music)
      ensures err <= {Unhealthy, PlayFailed, Mutated, CleanupFailed, Cancelled}
      ensures refusals == old(refusals) + (if Unhealthy in err then [l.path] else [])
      ensures obs.given == old(obs.given) + Handed(LoopRole, if err in {{Unhealthy}, {Cancelled}} then [] else [l.path])
      ensures Blocked() == if Unhealthy in err then old(Blocked()) + {l.path} else old(Blocked())
      ensures Unhealthy in err ==> err == {Unhealthy}
      ensures err == {} ==>
        loop == ActiveLoop(l.id, l.path, l.theme, Some(PeriodAt(t)), PeriodEnd(t)) && obs.loop == Source(l.path, true)
      ensures Mutated in err ==> loop == NO_LOOP && (CleanupFailed !in err ==> !obs.loop.running)
      ensures err != {} && Mutated !in err ==> obs.loop == old(obs.loop) && loop == old(loop) && CleanupFailed !in err
    {
      err := EnsurePlayable(l.path);
      if err != {} { return; }
      ghost var music0 := obs.At(MusicRole);
      err := PlayOBSFile(LoopRole, l.path);
      assert obs.At(MusicRole) == music0 && obs.loop == obs.At(LoopRole);
      if err != {} { return; }
      loop := ActiveLoop(l.id, l.path, l.theme, Some(PeriodAt(t)), PeriodEnd(t));
    }

    /** Forgets tentative quarantines and, if OBS was tried at all, puts the selection back. */
    method UndoActivation(tentative: seq<string>, attempted: bool, t: int, selection: Snapshot) returns (failed: bool)
      modifies this`quarantine, store
      ensures Blocked() == old(Blocked()) - Paths(tentative) && old(store.faults) <= store.faults
      ensures !attempted ==> store.Contents() == old(store.Contents()) && store.faults == old(store.faults) && !failed
      ensures attempted ==>
        Settles(old(store.Contents()),
                Restored(old(store.Contents()), DateOf(t), selection.override, KeyAt(t), selection.plan),
                store.Contents(), !failed)
    {
      ghost var blocked := Blocked();
      for i := 0 to |tentative|
        invariant Blocked() == blocked - Paths(tentative[..i])
        invariant store.Contents() == old(store.Contents()) && store.faults == old(store.faults)
      {
        Release(tentative[i]);
        assert tentative[..i + 1] == tentative[..i] + [tentative[i]];
      }
      assert tentative[..|tentative|] == tentative;
      failed := false;
      if attempted {
        var ok := store.RestorePlaybackSelection(DateOf(t), selection.override, KeyAt(t), selection.plan);
        failed := !ok;
      }
    }

    // ---- Activation ----

    predicate NeedsPlay(l: Loop, t: int, always: bool)
      reads this
    {
      always || loop.id != l.id || loop.path != l.path || loop.period != Some(PeriodAt(t))
      || loop.endsAt != PeriodEnd(t) || loop.endsAt <= t
    }

    /** The active loop already played, for this very occurrence of its period. */
    predicate PlayedAlready(before: ActiveLoop, t: int)
      reads this`loop
    {
      before.id == loop.id && before.path == loop.path && before.period == Some(PeriodAt(t))
      && before.endsAt == PeriodEnd(t) && t < before.endsAt
    }

    /** The active loop is a loop of the library that belongs to the period, or was ordered directly. */
    predicate Rightly(db: Db, t: int)
      reads this`library, this`loop
    {
      exists l | l in library.loops :: l.id == loop.id && l.path == loop.path && Belongs(db, t, l)
    }

    ghost method Interrupt()
      modifies this`interruptions
      ensures interruptions == old(interruptions) + 1 && (old(Valid()) ==> Valid())
    {
      interruptions := interruptions + 1;
    }

    /** The rotation ended before its time: interrupted, cancelled, or unable to stop what it had started. */
    ghost predicate BrokenOff(err: Errors, interruptionsBefore: nat)
      reads this`interruptions
    {
      interruptionsBefore < interruptions || Cancelled in err || CleanupFailed in err
    }

    method TryCandidate(t: int, force: bool, always: bool) returns (result: Attempt)
      requires Valid()
      modifies this`loop, this`music, this`quarantine, this`refusals, obs, store
      ensures Valid() && music == old(music) && obs.music == old(obs.music)
      ensures Touches(old(store.Contents()), store.Contents(), t)
      ensures if result.Unfit? then Blocked() == old(Blocked()) + {result.path} else Blocked() == old(Blocked())
      ensures refusals == old(refusals) + (if result.Unfit? then [result.path] else [])
      ensures obs.given == old(obs.given) + Handed(LoopRole, GivenFor(result))
      ensures result.Stopped? ==> result.err != {} && result.err <= {StoreFailed, NoCandidates}
      ensures old(store.faults) <= store.faults
      ensures result.Stopped? && store.faults == old(store.faults) ==> !Covers(library, Blocked(), PeriodAt(t))
      ensures result.Running? ==> Current(t) && loop.endsAt == PeriodEnd(t)
      ensures result.Running? ==> result.path == loop.path
      ensures result.Running? ==>
        if result.played then obs.loop == Source(loop.path, true) && (always || !PlayedAlready(old(loop), t))
        else !always && loop == old(loop) && obs.loop == old(obs.loop)
      ensures old(PlanFits(store.Contents(), library, t)) ==>
        PlanFits(store.Contents(), library, t) && (result.Running? ==> Rightly(old(store.Contents()), t))
      ensures result.Rejected? ==> result.err != {} && result.err <= {PlayFailed, Mutated, CleanupFailed, Cancelled}
      ensures !result.Running? ==>
        LoopAfter(if result.Rejected? then result.err else {}, loop, obs.loop, old(loop), old(obs.loop))
      ensures !result.Stopped? ==> result.path !in old(Blocked())
    {
      hide Touches, KeyAt, PeriodEnd, PeriodAt, LibraryOk, Blocked, PlanFits, Belongs;
      EndStartsTheNext(t);
      LibraryGivesPaths(library);
      var found, err, _ := LoopForTime(t, force);
      TouchesKeepsMusic(old(store.Contents()), store.Contents(), t);
      if found.None? { return Stopped(err); }
      var l := found.value;
      if !NeedsPlay(l, t, always) { return Running(l.path, false); }
      err := PlayLibraryLoop(l, t);
      if err == {} { return Running(l.path, true); }
      if Unhealthy in err { return Unfit(l.path); }
      result := Rejected(l.path, err);
    }

    ghost function Watched(): Moment
      reads this, obs, store
    {
      Moment(Blocked(), loop, obs.loop, store.Contents(), obs.given, refusals)
    }

    /** The active loop was just handed over, or was active before and did not have to be. */
    ghost predicate Started(start: Moment, tried: seq<string>, always: bool)
      reads this`loop, obs
    {
      || (tried != [] && tried[|tried| - 1] == loop.path && obs.loop == Source(loop.path, true))
      || (!always && loop == start.loop && obs.loop == start.source)
    }

    /**
     One round of an activation that began at `start` with `n` candidates tried before. Either it goes on with
     one more tentative quarantine or one more refusal, or it has ended.
     */
    method TryNext(ghost start: Moment, errors: Errors, before: seq<string>, ghost refusedBefore: seq<string>, ghost n: nat,
                   t: int, force: bool, always: bool)
        returns (ended: bool, err: Errors, tentative: seq<string>, attempted: bool,
                 ghost tried: seq<string>, ghost refused: seq<string>)
      requires Valid() && Underway(start, Watched(), errors, before, refusedBefore, n, t)
      requires PlanFits(start.db, library, t) ==> PlanFits(store.Contents(), library, t)
      modifies this`loop, this`music, this`quarantine, this`refusals, this`interruptions, obs, store
      ensures Valid() && music == old(music) && obs.music == old(obs.music) && old(store.faults) <= store.faults
      ensures PlanFits(start.db, library, t) ==> PlanFits(store.Contents(), library, t)
      ensures !ended ==> Underway(start, Watched(), err, tentative, refused, n + 1, t) && (attempted <==> tentative != [])
      ensures ended ==> Ended(start, Watched(), err, tentative, attempted, tried, refused, t) && |tried| + |refused| <= n + 1
      ensures ended && err == {} ==>
        && Current(t) && loop.endsAt == PeriodEnd(t) && loop.path !in start.blocked && Started(start, tried, always)
        && (PlanFits(start.db, library, t) ==> Rightly(start.db, t))
      ensures ended && err == {} && !always && tried == [loop.path] ==> !PlayedAlready(start.loop, t)
      ensures ended && err != {} && store.faults == old(store.faults) ==>
        !Covers(library, Blocked(), PeriodAt(t)) || (attempted && BrokenOff(err, old(interruptions)))
      ensures !ended ==> interruptions == old(interruptions)
    {
      hide Touches, KeyAt, PeriodEnd, PeriodAt, Attempts, Valid, Current, Blocked, Covers, LoopAfter, Underway;
      hide Handed, PlanFits, Belongs, Rightly, Ended, PlayedAlready;
      ghost var first := Watched();
      attempted, refused := before != [], refusedBefore;
      var result := TryCandidate(t, force, always);
      ghost var now := Watched();
      tried, tentative := before + GivenFor(result), before;
      match result {
        case Stopped(stop) =>
          EndStopped(start, first, now, errors, before, refusedBefore, n, t, stop);
          ended, err := true, errors + stop;
        case Running(path, played) =>
          EndRunning(start, first, now, errors, before, refusedBefore, n, t, path, played);
          if PlanFits(start.db, library, t) { StillRightly(start, first, errors, before, refusedBefore, n, t); }
          CurrentIsSome(t);
          assert tried == [loop.path] ==> tried[0] == loop.path;
          assert tried == [loop.path] ==> before == [] && played && first.loop == start.loop;
          ended, err := true, {};
        case Unfit(path) =>
          OneMoreUnfit(start, first, now, errors, before, refusedBefore, n, t, path);
          refused := refusedBefore + [path];
          ended, err := false, errors;
        case Rejected(path, cause) =>
          OneMoreRejected(start, first, now, errors, before, refusedBefore, n, t, path, cause);
          attempted, err := true, errors + cause;
          var abort := *;
          if abort { Interrupt(); }
          ended := abort || Cancelled in cause || CleanupFailed in cause;
          if !ended {
            QuarantineAsset(path);
            tentative := before + [path];
          }
      }
    }

    lemma CurrentIsSome(t: int)
      requires Current(t)
      ensures loop != NO_LOOP
    {
    }

    /** What belonged at the last moment belonged at the start. */
    lemma StillRightly(start: Moment, before: Moment, errors: Errors, tentative: seq<string>, refused: seq<string>,
                       n: nat, t: int)
      requires Underway(start, before, errors, tentative, refused, n, t) && Valid() && Rightly(before.db, t)
      ensures Rightly(start.db, t)
    {
      hide KeyAt;
    }

    /**
     Tries candidates one after the other until one plays, none is left, or it is pointless to
     go on. `tried` are the files handed to OBS, `refused` the assets found unfit.
     */
    method TryCandidates(t: int, redraw: bool, always: bool)
        returns (err: Errors, tentative: seq<string>, attempted: bool, ghost tried: seq<string>, ghost refused: seq<string>)
      requires Valid()
      modifies this`loop, this`music, this`quarantine, this`refusals, this`interruptions, obs, store
      ensures Valid() && music == old(music) && obs.music == old(obs.music) && old(store.faults) <= store.faults
      ensures Ended(old(Watched()), Watched(), err, tentative, attempted, tried, refused, t)
      ensures |tried| + |refused| <= AttemptLimit(|library.loops|) && err !! {RestoreFailed, StopFailed}
      ensures old(PlanFits(store.Contents(), library, t)) ==> PlanFits(store.Contents(), library, t)
      ensures err == {} ==>
        && Current(t) && loop.endsAt == PeriodEnd(t) && loop.path !in old(Blocked())
        && Started(old(Watched()), tried, always)
        && (old(PlanFits(store.Contents(), library, t)) ==> Rightly(old(store.Contents()), t))
      ensures err == {} && !always && tried == [loop.path] ==> !PlayedAlready(old(loop), t)
      ensures err != {} && store.faults == old(store.faults) ==>
        || !Covers(library, Blocked(), PeriodAt(t)) || |tried| + |refused| == AttemptLimit(|library.loops|)
        || (attempted && BrokenOff(err, old(interruptions)))
    {
      hide Touches, KeyAt, PeriodEnd, PeriodAt, Attempts, Valid, Current, Blocked, Covers, LoopAfter, AttemptLimit, Underway;
      hide PlanFits, Rightly, Ended, PlayedAlready;
      ghost var start := Watched();
      err, tentative, attempted, refused := {}, [], false, [];
      NothingTried(start, t);
      var limit := AttemptLimit(|library.loops|);
      for attempt := 0 to limit
        invariant Valid() && music == old(music) && obs.music == old(obs.music) && old(store.faults) <= store.faults
        invariant PlanFits(start.db, library, t) ==> PlanFits(store.Contents(), library, t)
        invariant Underway(start, Watched(), err, tentative, refused, attempt, t)
        invariant (attempted <==> tentative != []) && interruptions == old(interruptions)
      {
        var ended;
        ended, err, tentative, attempted, tried, refused :=
          TryNext(start, err, tentative, refused, attempt, t, redraw && attempt == 0, always);
        if ended {
          EndedMeans(start, Watched(), err, tentative, attempted, tried, refused, t);
          return;
        }
      }
      tried := tentative;
      AllTried(start, Watched(), err, tentative, refused, limit, t);
      err := err + {NoCandidates};
    }

    /**
     Activates the loop the schedule calls for. If every attempt fails, tentative
     quarantines are lifted, and once OBS was tried the selection is put back as it was.
     `tried` are the files handed to OBS, `refused` the assets found unfit.
     */
    method ActivateScheduledLoop(t: int, redraw: bool, always: bool)
        returns (err: Errors, ghost tried: seq<string>, ghost refused: seq<string>)
      requires Valid()
      modifies this`loop, this`music, this`quarantine, this`refusals, this`interruptions, obs, store
      ensures Valid() && music == old(music) && obs.music == old(obs.music) && StopFailed !in err
      ensures obs.given == old(obs.given) + Handed(LoopRole, tried) && refusals == old(refusals) + refused
      ensures |tried| + |refused| <= MAX_CANDIDATES && NoRepeats(tried)
      ensures err == {} ==>
        && Current(t) && loop.endsAt == PeriodEnd(t) && loop.path !in old(Blocked())
        && Started(old(Watched()), tried, always)
        && (old(PlanFits(store.Contents(), library, t)) ==> Rightly(old(store.Contents()), t))
      // without need OBS is left alone
      ensures err == {} && !always && tried == [loop.path] ==> !PlayedAlready(old(loop), t)
      ensures old(PlanFits(store.Contents(), library, t)) ==> PlanFits(store.Contents(), library, t)
      // it gives up only if nothing healthy is left untried, or after eight candidates
      ensures err != {} && store.faults == old(store.faults) ==>
        || !Covers(library, Blocked() + Paths(tried), PeriodAt(t))
        || |tried| + |refused| == (if |library.loops| < 8 then |library.loops| else 8)
        || BrokenOff(err, old(interruptions))
      ensures err != {} ==>
        && LoopAfter(err, loop, obs.loop, old(loop), old(obs.loop))
        && Blocked() == old(Blocked()) + Paths(refused) && (forall path | path in tried :: path !in Blocked())
        && (if tried == [] && Cancelled !in err then
              && Touches(old(store.Contents()), store.Contents(), t)
              && (store.faults == old(store.faults) ==>
                    !Covers(library, Blocked(), PeriodAt(t))
                    || |refused| == (if |library.loops| < 8 then |library.loops| else 8))
            else RestoreFailed !in err ==>
              && RolledBack(old(store.Contents()), store.Contents(), t,
                            SnapshotAt(old(store.Contents()), library, old(Blocked()), t))
              && SelectionKept(old(store.Contents()), library, old(Blocked()), t,
                               OverrideAt(store.Contents(), DateOf(t)), PlanAt(store.Contents(), KeyAt(t))))
    {
      hide Touches, KeyAt, PeriodEnd, PeriodAt, Attempts, Valid, Current, Blocked, RolledBack, SnapshotAt, NoRepeats, Covers;
      hide Handed, Paths, SelectionKept, PlanFits, Rightly, Started, PlayedAlready;
      ghost var blocked0, db0 := Blocked(), store.Contents();
      ClearingTouches(db0, t);
      NoAttempts(blocked0);
      tried, refused := [], [];
      AttemptsMean(blocked0, blocked0, [], [], []);
      NothingHanded(obs.given, LoopRole);
      label start:
      var selection := CaptureSelection(t);
      CaptureKeepsValid@start();
      if selection.None? { return {StoreFailed}, [], []; }
      var tentative, attempted;
      err, tentative, attempted, tried, refused := TryCandidates(t, redraw, always);
      AttemptsMean(Blocked(), blocked0, tried, tentative, refused);
      if err == {} { return; }
      LimitIsEight(library);
      CoversLess(library, Blocked(), blocked0 + Paths(refused) + Paths(tried), PeriodAt(t));
      CoversLess(library, blocked0 + Paths(refused), Blocked(), PeriodAt(t));
      ghost var db1 := store.Contents();
      label tried_:
      var failed := UndoActivation(tentative, attempted, t, selection.value);
      UndoKeepsValid@tried_();
      if attempted && PlanFits(db0, library, t) {
        UndoneFits(db0, db1, store.Contents(), library, blocked0, t, selection.value, !failed);
      }
      if failed {
        err := err + {RestoreFailed};
      } else if attempted {
        RestoreRollsBack(db0, db1, store.Contents(), t, selection.value);
        RolledBackPutsBack(db0, store.Contents(), t, selection.value);
      }
    }

    /** The active state and what it refers to do not depend on quarantine or stored selections. */
    twostate lemma CaptureKeepsValid()
      requires old(Valid()) && store.Contents() == old(store.Contents())
      requires unchanged(this`library, this`loop, this`music, this`pendingLast, this`lastStarted, obs)
      ensures Valid()
    {
    }

    twostate lemma UndoKeepsValid()
      requires old(Valid()) && store.lastMusic == old(store.lastMusic)
      requires unchanged(this`library, this`loop, this`music, this`pendingLast, this`lastStarted, obs)
      ensures Valid()
    {
    }

    /** The active loop is of this period and still in the library, healthy and at the same path. */
    predicate StillGood(t: int)
      reads this
    {
      && Current(t)
      && var known := FindLoop(library.loops, Blocked(), loop.id);
         known.Some? && known.value.path == loop.path
    }

    /** A loop whose period is over is stopped, unless its source was stopped already. */
    method FailClosedExpiredLoop(t: int, cause: Errors) returns (err: Errors)
      requires Valid() && cause != {} && StopFailed !in cause
      requires Mutated in cause && CleanupFailed !in cause ==> loop == NO_LOOP && !obs.loop.running
      modifies this`loop, this`quarantine, obs
      ensures Valid() && obs.music == old(obs.music) && Blocked() == old(Blocked()) && obs.given == old(obs.given)
      ensures err == cause || err == cause + {StopFailed}
      ensures Closed(t, err)
      ensures old(StillGood(t)) ==> err == cause && loop == old(loop) && obs.loop == old(obs.loop)
    {
      if loop.path == "" && Mutated in cause && CleanupFailed !in cause { return cause; }
      if loop.path != "" && loop.period == Some(PeriodAt(t)) && t < loop.endsAt {
        var active := FindLoopByID(loop.id);
        if active.Some? && active.value.path == loop.path { return cause; }
      }
      ghost var music0 := obs.At(MusicRole);
      var stopped := obs.StopSource(LoopRole);
      assert obs.At(MusicRole) == music0 && obs.At(LoopRole) == obs.loop;
      if !stopped { return cause + {StopFailed}; }
      loop := NO_LOOP;
      err := cause;
    }

    /** The loop source shows the current period, or was stopped, or the error says that it could not be stopped. */
    ghost predicate Closed(t: int, err: Errors)
      reads this, obs
    {
      || (Current(t) && obs.loop.file == loop.path)
      || (loop == NO_LOOP && !obs.loop.running)
      || StopFailed in err
    }

    // ---- Music ----

    method PersistLastMusic() returns (err: Errors)
      requires lastStarted == (if pendingLast != "" then pendingLast else store.lastMusic)
      modifies this`pendingLast, store
      ensures err <= {StoreFailed} && (err == {} ==> pendingLast == "")
      ensures lastStarted == (if pendingLast != "" then pendingLast else store.lastMusic)
      ensures store.overrides == old(store.overrides) && store.plans == old(store.plans)
    {
      if pendingLast == "" { return {}; }
      var ok := store.SetLastMusicID(pendingLast);
      if !ok { return {StoreFailed}; }
      pendingLast := "";
      err := {};
    }

    method PlayMusicAsset(m: Music) returns (err: Errors)
      requires Valid() && m.path != ""
      modifies this`loop, this`music, this`quarantine, this`refusals, obs
      ensures loop == old(loop) && obs.loop == old(obs.loop)
      ensures refusals == old(refusals) + (if Unhealthy in err then [m.path] else [])
      ensures obs.given == old(obs.given) + Handed(MusicRole, if err in {{Unhealthy}, {Cancelled}} then [] else [m.path])
      ensures err <= {Unhealthy, PlayFailed, Mutated, CleanupFailed, Cancelled}
      ensures Blocked() == if Unhealthy in err then old(Blocked()) + {m.path} else old(Blocked())
      ensures Unhealthy in err ==> err == {Unhealthy}
      ensures err == {} ==> music == m && obs.music == Source(m.path, true)
      ensures err != {} ==> Valid() && (music == old(music) || music == NO_MUSIC)
    {
      err := EnsurePlayable(m.path);
      if err != {} { return; }
      ghost var loop0 := obs.At(LoopRole);
      err := PlayOBSFile(MusicRole, m.path);
      assert obs.At(LoopRole) == loop0 && obs.music == obs.At(MusicRole);
      if err != {} { return; }
      music := m;
    }

    method TryMusic(previous: string) returns (result: Attempt, ghost chosen: Music)
      requires Valid()
      modifies this`loop, this`music, this`quarantine, this`refusals, obs
      ensures loop == old(loop) && obs.loop == old(obs.loop)
      ensures refusals == old(refusals) + (if result.Unfit? then [result.path] else [])
      ensures obs.given == old(obs.given) + Handed(MusicRole, GivenFor(result))
      ensures if result.Unfit? then Blocked() == old(Blocked()) + {result.path} else Blocked() == old(Blocked())
      ensures result.Stopped? ==> result.err == {NoCandidates} && Valid() && music == old(music) && MusicWithin(library, Blocked())
      ensures !result.Stopped? ==> result.path !in old(Blocked())
      ensures result.Running? ==>
        result.played && result.path == music.path && music == chosen && StartedOther(previous)
      ensures result.Rejected? || result.Unfit? ==> Valid() && (music == old(music) || music == NO_MUSIC)
      ensures result.Rejected? ==> result.err != {} && result.err <= {PlayFailed, Mutated, CleanupFailed, Cancelled}
    {
      chosen := NO_MUSIC;
      var playable := PlayableLibrary();
      var choice := ChooseMusic(playable, previous);
      if choice.None? { return Stopped({NoCandidates}), NO_MUSIC; }
      chosen := choice.value;
      var err := PlayMusicAsset(choice.value);
      result := if err == {} then Running(choice.value.path, true)
                else if Unhealthy in err then Unfit(choice.value.path)
                else Rejected(choice.value.path, err);
    }

    /** The active track, else the one waiting to be stored, else the stored one. */
    method PreviousTrack() returns (previous: Option<string>)
      requires Valid()
      modifies store`faults
      ensures Valid() && store.Contents() == old(store.Contents())
      ensures previous.Some? ==> previous.value == lastStarted
    {
      if music.id != "" { return Some(music.id); }
      if pendingLast != "" { return Some(pendingLast); }
      previous := store.LastMusicID();
    }

    /** A rotation that began at `start`, after `n` tracks, none of which plays. */
    ghost predicate Rotating(start: Moment, tentative: seq<string>, refused: seq<string>, n: nat)
      reads this`quarantine, this`files, this`refusals, obs
    {
      && Attempts(Blocked(), start.blocked, tentative, tentative, refused)
      && obs.given == start.given + Handed(MusicRole, tentative) && refusals == start.refusals + refused
      && |tentative| + |refused| == n
    }

    /** A rotation that has ended, with everything it tried accounted for. */
    ghost predicate Rotated(start: Moment, tentative: seq<string>, tried: seq<string>, refused: seq<string>, n: nat)
      reads this`quarantine, this`files, this`refusals, obs
    {
      && Attempts(Blocked(), start.blocked, tried, tentative, refused)
      && obs.given == start.given + Handed(MusicRole, tried) && refusals == start.refusals + refused
      && |tried| + |refused| <= n
    }

    /** One round of a rotation: it goes on with one more tentative quarantine or refusal, or it has ended. */
    method TryNextTrack(previous: string, ghost start: Moment, errors: Errors, before: seq<string>,
                        ghost refusedBefore: seq<string>, ghost n: nat)
        returns (ended: bool, err: Errors, started: bool, tentative: seq<string>, ghost tried: seq<string>,
                 ghost refused: seq<string>)
      requires Valid() && previous == lastStarted && Rotating(start, before, refusedBefore, n)
      requires errors <= {PlayFailed, Mutated}
      modifies this`loop, this`music, this`quarantine, this`refusals, this`interruptions, obs
      ensures loop == old(loop) && obs.loop == old(obs.loop) && StopFailed !in err
      ensures !ended ==> Rotating(start, tentative, refused, n + 1) && err <= {PlayFailed, Mutated} && !started
      ensures ended ==> Rotated(start, tentative, tried, refused, n + 1)
      ensures started ==> StartedOther(previous) && tried != [] && tried[|tried| - 1] == music.path
      ensures !started ==> Valid() && (music == old(music) || music == NO_MUSIC)
      ensures ended && !started ==>
        err != {} && (MusicWithin(library, Blocked()) || (tried != [] && BrokenOff(err, old(interruptions)))
                      || Cancelled in err)
      ensures !ended ==> interruptions == old(interruptions)
    {
      hide Blocked, Attempts, Valid, Handed, MusicWithin, NoRepeats;
      ghost var blocked1, given1 := Blocked(), obs.given;
      var result, chosen := TryMusic(previous);
      started, tentative, tried, refused := false, before, before + GivenFor(result), refusedBefore;
      MoreHanded(start.given, given1, obs.given, MusicRole, before, GivenFor(result));
      match result {
        case Stopped(stop) =>
          ended, err := true, errors + stop;
        case Running(path, _) =>
          OneMoreTried(blocked1, start.blocked, before, refused, path);
          ended, started, err := true, true, {};
        case Unfit(path) =>
          OneMoreBlocked(blocked1, start.blocked, before, refused, path);
          refused := refused + [path];
          ended, err := false, errors;
        case Rejected(path, cause) =>
          OneMoreTried(blocked1, start.blocked, before, refused, path);
          err := errors + cause;
          var abort := *;
          if abort { Interrupt(); }
          ended := abort || Cancelled in cause || CleanupFailed in cause;
          if !ended {
            QuarantineAsset(path);
            tentative := before + [path];
          }
      }
    }

    /** Music of the library plays; it is the previous track only if no other healthy one is left. */
    predicate StartedOther(previous: string)
      reads this`library, this`music, this`quarantine, this`files, obs
    {
      && music in library.music && obs.music == Source(music.path, true)
      && (previous != "" && music.id == previous ==>
            forall m | m in library.music && m.path !in Blocked() :: m.id == previous)
    }

    /** `tried` are the files handed to OBS, `refused` the assets found unfit. */
    method TryTracks(previous: string)
        returns (err: Errors, started: bool, ghost tried: seq<string>, ghost refused: seq<string>)
      requires Valid() && previous == lastStarted
      modifies this`loop, this`music, this`quarantine, this`refusals, this`interruptions, obs
      ensures loop == old(loop) && obs.loop == old(obs.loop) && StopFailed !in err
      ensures obs.given == old(obs.given) + Handed(MusicRole, tried) && refusals == old(refusals) + refused
      ensures |tried| + |refused| <= AttemptLimit(|library.music|) && NoRepeats(tried)
      ensures started ==> StartedOther(previous) && tried != [] && tried[|tried| - 1] == music.path
      ensures !started ==> err != {} && Valid() && (music == old(music) || music == NO_MUSIC)
      ensures !started ==>
        Blocked() == old(Blocked()) + Paths(refused) && forall path | path in tried :: path !in Blocked()
      ensures !started ==>
        || MusicWithin(library, Blocked() + Paths(tried)) || |tried| + |refused| == AttemptLimit(|library.music|)
        || Cancelled in err || (tried != [] && BrokenOff(err, old(interruptions)))
    {
      hide Blocked, Attempts, Valid, Handed, Paths, AttemptLimit, NoRepeats, MusicWithin, StartedOther;
      ghost var start := Moment(Blocked(), loop, obs.loop, Db(map[], map[], ""), obs.given, refusals);
      var tentative: seq<string>, ended;
      err, started, tentative, tried, refused := {}, false, [], [], [];
      NoAttempts(start.blocked);
      NothingHanded(start.given, MusicRole);
      var limit := AttemptLimit(|library.music|);
      for attempt := 0 to limit
        invariant Valid() && loop == old(loop) && obs.loop == old(obs.loop) && !started
        invariant (music == old(music) || music == NO_MUSIC) && interruptions == old(interruptions)
        invariant Rotating(start, tentative, refused, attempt) && err <= {PlayFailed, Mutated}
      {
        ended, err, started, tentative, tried, refused := TryNextTrack(previous, start, err, tentative, refused, attempt);
        if ended {
          AttemptsMean(Blocked(), start.blocked, tried, tentative, refused);
          MusicWithinMore(library, Blocked(), start.blocked + Paths(refused) + Paths(tried));
          if !started { ForgetTentative(tentative); }
          return;
        }
      }
      AttemptsMean(Blocked(), start.blocked, tentative, tentative, refused);
      ForgetTentative(tentative);
      tried := tentative;
      err := err + {NoCandidates};
    }

    /**
     Starts another track. The track started last is avoided while any other healthy one
     is left, whether it is still active, waiting to be stored, or only stored. At most eight
     files are handed to OBS, none twice, and if none plays no tentative quarantine stays.
     */
    method PlayNextMusic(force: bool)
        returns (err: Errors, started: bool, ghost tried: seq<string>, ghost refused: seq<string>)
      requires Valid()
      modifies this`loop, this`music, this`pendingLast, this`quarantine, this`lastStarted, this`refusals, this`interruptions, obs, store
      ensures Valid() && loop == old(loop) && obs.loop == old(obs.loop) && StopFailed !in err
      ensures obs.given == old(obs.given) + Handed(MusicRole, tried) && refusals == old(refusals) + refused
      ensures |tried| + |refused| <= MAX_CANDIDATES && NoRepeats(tried)
      ensures store.overrides == old(store.overrides) && store.plans == old(store.plans)
      ensures started ==>
        && music in library.music && lastStarted == music.id && obs.music == Source(music.path, true)
        && tried != [] && tried[|tried| - 1] == music.path
        && (music.id == old(lastStarted) ==>
              forall m | m in library.music && m.path !in Blocked() :: m.id == music.id)
      ensures !started ==>
        && lastStarted == old(lastStarted) && (music == old(music) || music == NO_MUSIC)
        && Blocked() == old(Blocked()) + Paths(refused) && (forall path | path in tried :: path !in Blocked())
      ensures !started ==> err != {} || library.music == []
      // it gives up only if no healthy track is left untried, or after eight of them
      ensures !started && StoreFailed !in err ==>
        || MusicWithin(library, Blocked() + Paths(tried))
        || |tried| + |refused| == (if |library.music| < 8 then |library.music| else 8)
        || Cancelled in err || (tried != [] && BrokenOff(err, old(interruptions)))
      ensures library.music == [] && err <= {NoCandidates} ==> music == NO_MUSIC && !obs.music.running
    {
      hide Blocked, Handed, NoRepeats, Paths;
      started, tried, refused := false, [], [];
      NoAttempts(Blocked());
      AttemptsMean(Blocked(), Blocked(), [], [], []);
      NothingHanded(obs.given, MusicRole);
      if |library.music| == 0 {
        err := StopMusic();
        if err != {} { return; }
        return if force then {NoCandidates} else {}, false, [], [];
      }
      var previous := PreviousTrack();
      if previous.None? { return {StoreFailed}, false, [], []; }
      err, started, tried, refused := TryTracks(previous.value);
      if started {
        MusicIsNamed(library, music);
        pendingLast, lastStarted := music.id, music.id;
        err := PersistLastMusic();
      }
    }

    method ForgetTentative(tentative: seq<string>)
      modifies this`quarantine
      ensures Blocked() == old(Blocked()) - Paths(tentative)
      ensures old(Valid()) ==> Valid()
    {
      ghost var blocked := Blocked();
      for i := 0 to |tentative|
        invariant Blocked() == blocked - Paths(tentative[..i]) && (old(Valid()) ==> Valid())
      {
        Release(tentative[i]);
        assert tentative[..i + 1] == tentative[..i] + [tentative[i]];
      }
      assert tentative[..|tentative|] == tentative;
    }

    method StopMusic() returns (err: Errors)
      requires Valid()
      modifies this`music, obs
      ensures Valid() && obs.loop == old(obs.loop) && obs.given == old(obs.given)
      ensures err <= {MusicStopFailed}
      ensures if err == {} then music == NO_MUSIC && !obs.music.running else music == old(music)
    {
      ghost var loop0 := obs.At(LoopRole);
      var stopped := obs.StopSource(MusicRole);
      assert obs.At(LoopRole) == loop0 && obs.At(MusicRole) == obs.music;
      if !stopped { return {MusicStopFailed}; }
      music := NO_MUSIC;
      err := {};
    }

    /** A known track plays, or there is none and the source was stopped. */
    predicate MusicSettled()
      reads this, obs
    {
      if library.music == [] then music == NO_MUSIC && !obs.music.running
      else music in library.music && obs.music.file == music.path
    }

    /** Music removed from the library stops, and some music plays if there is any. */
    method EnsureMusic() returns (err: Errors)
      requires Valid()
      modifies this`loop, this`music, this`pendingLast, this`quarantine, this`lastStarted, this`refusals, this`interruptions, obs, store
      ensures Valid() && loop == old(loop) && obs.loop == old(obs.loop) && StopFailed !in err
      ensures err == {} ==> MusicSettled()
      ensures |obs.given| <= |old(obs.given)| + MAX_CANDIDATES
      ensures store.overrides == old(store.overrides) && store.plans == old(store.plans)
    {
      var persistErr: Errors := {};
      if pendingLast != "" { persistErr := PersistLastMusic(); }
      if |library.music| > 0 && music.id != "" && music.path != "" {
        var known := FindMusicByID(music.id);
        if known.None? || known.value.path != music.path {
          var stopErr := StopMusic();
          if stopErr != {} { return persistErr + stopErr; }
        }
      }
      err := persistErr;
      if |library.music| == 0 || music.id == "" || music.path == "" {
        var playErr, _, _, _ := PlayNextMusic(false);
        err := err + playErr;
      }
    }

    /**
     The periodic entry point. Whatever fails, on return the loop of the current
     period is playing, or the loop source was stopped, or the error reports a failed stop.
     */
    method EnsureLibraryPlayback(t: int, force: bool) returns (err: Errors)
      requires Valid()
      modifies this`loop, this`music, this`pendingLast, this`quarantine, this`lastStarted, this`refusals, this`interruptions, obs, store
      ensures Valid() && Closed(t, err)
      ensures err == {} ==> Current(t) && MusicSettled()
      ensures err == {} && old(PlanFits(store.Contents(), library, t)) ==> Rightly(old(store.Contents()), t)
      ensures old(PlanFits(store.Contents(), library, t)) ==> PlanFits(store.Contents(), library, t)
      ensures |obs.given| <= |old(obs.given)| + 2 * MAX_CANDIDATES
    {
      hide LoopAfter, Touches, RolledBack, NoRepeats, Blocked;
      var loopErr, _, _ := ActivateScheduledLoop(t, force, force);
      if loopErr != {} {
        var disconnected := *;
        var pointless := disconnected || Cancelled in loopErr || CleanupFailed in loopErr;
        LoopAfterMeans(loopErr, loop, obs.loop, old(loop), old(obs.loop));
        loopErr := FailClosedExpiredLoop(t, loopErr);
        if pointless { return loopErr; }
      }
      var musicErr := EnsureMusic();
      err := loopErr + musicErr;
    }

    /** The active track is still in the library, healthy and at the same path. */
    predicate MusicKnown()
      reads this
    {
      && music.id != "" && music.path != ""
      && exists m | m in library.music :: m.id == music.id && m.path == music.path && m.path !in Blocked()
    }

    /** The active track was the last file handed to OBS since `given`, and OBS took it. */
    ghost predicate JustHanded(given: seq<Handover>)
      reads this, obs
    {
      && given < obs.given && obs.given[|obs.given| - 1] == Handover(MusicRole, music.path)
      && obs.music == Source(music.path, true)
    }

    method PlayAnother() returns (err: Errors)
      requires Valid()
      modifies this`loop, this`music, this`pendingLast, this`quarantine, this`lastStarted, this`refusals, this`interruptions, obs, store
      ensures Valid() && loop == old(loop) && obs.loop == old(obs.loop) && StopFailed !in err
      ensures err == {} ==> MusicSettled()
      ensures music != NO_MUSIC ==> JustHanded(old(obs.given))
      ensures old(refusals) <= refusals
    {
      hide Blocked, NoRepeats, Paths;
      music := NO_MUSIC;
      var started;
      ghost var tried, refused;
      err, started, tried, refused := PlayNextMusic(false);
      if started { MusicIsNamed(library, music); }
    }

    /**
     Plays the active track again, or another one if it is gone or unfit. Whatever counts as
     active afterwards was the last file handed to OBS in this call.
     */
    method ReplayActiveMusic() returns (err: Errors)
      requires Valid()
      modifies this`loop, this`music, this`pendingLast, this`quarantine, this`lastStarted, this`refusals, this`interruptions, obs, store
      ensures Valid() && loop == old(loop) && obs.loop == old(obs.loop) && StopFailed !in err
      ensures err == {} ==> MusicSettled()
      ensures music != NO_MUSIC ==> JustHanded(old(obs.given))
      ensures old(MusicKnown()) ==>
        || (err == {} && music == old(music) && obs.given == old(obs.given) + Handed(MusicRole, [music.path]))
        || (err != {} && music == NO_MUSIC && refusals == old(refusals) && |obs.given| <= |old(obs.given)| + 1)
        || old(refusals) + [old(music).path] <= refusals
    {
      hide Blocked;
      if music.id != "" && music.path != "" {
        var known := FindMusicByID(music.id);
        if known.Some? && known.value.path == music.path {
          OneTrackPerID(library, known.value, music);
          err := PlayMusicAsset(known.value);
          if err == {} { return; }
          music := NO_MUSIC;
          if Unhealthy in err { err := PlayAnother(); }
          return;
        }
        KnownIsFound(known);
      }
      err := PlayAnother();
    }

    lemma KnownIsFound(found: Option<Music>)
      requires LibraryOk(library) && music.id != ""
      requires found.Some? ==> found.value in library.music && found.value.id == music.id && found.value.path != music.path
      requires found.None? ==> forall m | m in library.music && m.id == music.id :: m.path in Blocked()
      ensures !MusicKnown()
    {
    }

    /** A loop that stopped making progress is stopped and quarantined before another one is tried. */
    method FailoverStalledLoop(t: int) returns (err: Errors)
      requires Valid() && loop.path != ""
      modifies this`loop, this`music, this`quarantine, this`refusals, this`interruptions, obs, store
      ensures Valid() && music == old(music) && obs.music == old(obs.music)
      ensures err == {} ==> Current(t) && loop.path != old(loop.path) && obs.loop == Source(loop.path, true)
      ensures err == {} && old(PlanFits(store.Contents(), library, t)) ==> Rightly(old(store.Contents()), t)
      ensures err != {} && StopFailed !in err && Mutated !in err ==> loop == NO_LOOP && !obs.loop.running
    {
      ghost var music0 := obs.At(MusicRole);
      var path := loop.path;
      var stopped := obs.StopSource(LoopRole);
      assert obs.At(MusicRole) == music0 && obs.At(LoopRole) == obs.loop;
      if !stopped { return {StopFailed}; }
      QuarantineAsset(path);
      loop := NO_LOOP;
      var activateErr, _, _ := ActivateScheduledLoop(t, false, true);
      err := activateErr;
    }
  }

  /** Every track of the library is among these files. */
  predicate MusicWithin(lib: Library, files: set<string>) { forall m | m in lib.music :: m.path in files }

  lemma MusicWithinMore(lib: Library, files: set<string>, more: set<string>)
    ensures files <= more && MusicWithin(lib, files) ==> MusicWithin(lib, more)
  {
  }

  lemma LimitIsEight(lib: Library)
    ensures || AttemptLimit(|lib.loops|) == (if |lib.loops| < 8 then |lib.loops| else 8)
            || forall blocked, period :: !Covers(lib, blocked, period)
  {
  }

  lemma CoversLess(lib: Library, blocked: set<string>, more: set<string>, period: Period)
    ensures blocked <= more && Covers(lib, more, period) ==> Covers(lib, blocked, period)
  {
  }

  lemma LoopAfterMeans(err: Errors, loop: ActiveLoop, source: Source, loop0: ActiveLoop, source0: Source)
    requires LoopAfter(err, loop, source, loop0, source0)
    ensures Mutated in err && CleanupFailed !in err ==> loop == NO_LOOP && !source.running
  {
  }

  lemma OneTrackPerID(lib: Library, m: Music, active: Music)
    requires m in lib.music && m.id == active.id && m.path == active.path
    ensures m == active
  {
  }

  lemma MusicIsNamed(lib: Library, m: Music)
    requires LibraryOk(lib) && m in lib.music
    ensures m.id != "" && m.path != ""
  {
  }

  lemma AttemptsMean(blocked: set<string>, blocked0: set<string>, tried: seq<string>, tentative: seq<string>,
                     refused: seq<string>)
    requires Attempts(blocked, blocked0, tried, tentative, refused)
    ensures NoRepeats(tried)
    ensures blocked - Paths(tentative) == blocked0 + Paths(refused)
    ensures forall path | path in tried :: path !in blocked0 + Paths(refused)
    ensures tentative == [] ==> blocked == blocked0 + Paths(refused)
    ensures tried == [] ==> tentative == []
    ensures blocked <= blocked0 + Paths(refused) + Paths(tried)
  {
    if tentative != [] { assert tentative[0] in tentative; }
    assert (blocked0 + Paths(refused)) * Paths(tentative) == {};
  }

  /** The fate of one candidate. */
  datatype Attempt =
    | Running(path: string, played: bool)
    | Unfit(path: string)
    | Rejected(path: string, err: Errors)
    | Stopped(err: Errors)

  /** The file handed to OBS for one candidate, if it came to that. */
  function GivenFor(result: Attempt): seq<string> {
    match result
    case Running(path, played) => if played then [path] else []
    case Rejected(path, err) => if err == {Cancelled} then [] else [path]
    case _ => []
  }

  /** Book-keeping of an activation: what was tried, what is quarantined only for now, and what proved unfit. */
  ghost predicate Attempts(blocked: set<string>, blocked0: set<string>, tried: seq<string>, tentative: seq<string>,
                           refused: seq<string>) {
    && NoRepeats(tried) && (forall path | path in tentative :: path in tried)
    && blocked == blocked0 + Paths(refused) + Paths(tentative)
    && (forall path | path in tried :: path !in blocked0 && path !in refused)
  }

  lemma NoAttempts(blocked: set<string>)
    ensures Attempts(blocked, blocked, [], [], [])
  {
  }

  lemma OneMoreTried(blocked: set<string>, blocked0: set<string>, tentative: seq<string>, refused: seq<string>, path: string)
    requires Attempts(blocked, blocked0, tentative, tentative, refused) && path !in blocked
    ensures path !in blocked0 && path !in tentative
    ensures Attempts(blocked, blocked0, tentative + [path], tentative, refused)
    ensures Attempts(blocked + {path}, blocked0, tentative + [path], tentative + [path], refused)
  {
    assert path !in tentative;
  }

  lemma OneMoreBlocked(blocked: set<string>, blocked0: set<string>, tentative: seq<string>, refused: seq<string>,
                       path: string)
    requires Attempts(blocked, blocked0, tentative, tentative, refused) && path !in blocked
    ensures Attempts(blocked + {path}, blocked0, tentative, tentative, refused + [path])
  {
    assert path !in tentative;
  }

  /** What an activation watches: blocked paths, active loop, loop source, database, and the two logs. */
  datatype Moment = Moment(blocked: set<string>, loop: ActiveLoop, source: Source, db: Db,
                           given: seq<Handover>, refusals: seq<string>)

  /** An activation under way, after `n` candidates, none of which plays. */
  ghost predicate Underway(start: Moment, now: Moment, errors: Errors, tentative: seq<string>, refused: seq<string>,
                           n: nat, t: int) {
    && Attempts(now.blocked, start.blocked, tentative, tentative, refused)
    && LoopAfter(errors, now.loop, now.source, start.loop, start.source) && errors <= {PlayFailed, Mutated}
    && Touches(start.db, now.db, t)
    && now.given == start.given + Handed(LoopRole, tentative) && now.refusals == start.refusals + refused
    && |tentative| + |refused| == n && (tentative == [] ==> errors == {})
  }

  lemma NothingHanded(given: seq<Handover>, role: Role)
    ensures given == given + Handed(role, [])
  {
  }

  lemma MoreHanded(given0: seq<Handover>, given1: seq<Handover>, given2: seq<Handover>, role: Role,
                   first: seq<string>, second: seq<string>)
    requires given1 == given0 + Handed(role, first) && given2 == given1 + Handed(role, second)
    ensures given2 == given0 + Handed(role, first + second)
    ensures second == [] ==> first + second == first
  {
  }

  /** An activation that has ended, with everything it tried accounted for. */
  ghost predicate Ended(start: Moment, now: Moment, err: Errors, tentative: seq<string>, attempted: bool,
                        tried: seq<string>, refused: seq<string>, t: int) {
    && Attempts(now.blocked, start.blocked, tried, tentative, refused) && Touches(start.db, now.db, t)
    && now.given == start.given + Handed(LoopRole, tried) && now.refusals == start.refusals + refused
    && err <= {PlayFailed, Mutated, CleanupFailed, Cancelled, StoreFailed, NoCandidates}
    && (err != {} ==>
          && LoopAfter(err, now.loop, now.source, start.loop, start.source)
          && (attempted <==> tried != [] || Cancelled in err))
  }

  lemma EndedMeans(start: Moment, now: Moment, err: Errors, tentative: seq<string>, attempted: bool,
                   tried: seq<string>, refused: seq<string>, t: int)
    requires Ended(start, now, err, tentative, attempted, tried, refused, t)
    ensures err !! {RestoreFailed, StopFailed}
  {
  }

  /** Every candidate was tried in vain. */
  lemma AllTried(start: Moment, now: Moment, errors: Errors, tentative: seq<string>, refused: seq<string>, n: nat, t: int)
    requires Underway(start, now, errors, tentative, refused, n, t)
    ensures |tentative| + |refused| == n
    ensures var err := errors + {NoCandidates};
      && Ended(start, now, err, tentative, tentative != [], tentative, refused, t)
      && err !! {RestoreFailed, StopFailed} && err != {}
  {
    hide Attempts, Touches;
  }

  lemma NothingTried(start: Moment, t: int)
    ensures Underway(start, start, {}, [], [], 0, t)
  {
    ClearingTouches(start.db, t);
    NoAttempts(start.blocked);
  }

  lemma StandingStill(now: Moment, t: int)
    ensures Touches(now.db, now.db, t) && LoopAfter({}, now.loop, now.source, now.loop, now.source)
    ensures now.given == now.given + Handed(LoopRole, [])
  {
  }

  /** The choice ended the activation. */
  lemma EndStopped(start: Moment, before: Moment, now: Moment, errors: Errors, tentative: seq<string>, refused: seq<string>,
                   n: nat, t: int, stop: Errors)
    requires Underway(start, before, errors, tentative, refused, n, t)
    requires now.blocked == before.blocked && Touches(before.db, now.db, t)
    requires now.given == before.given + Handed(LoopRole, []) && now.refusals == before.refusals
    requires LoopAfter({}, now.loop, now.source, before.loop, before.source) && stop <= {StoreFailed, NoCandidates}
    ensures tentative + [] == tentative
    ensures stop != {} ==> Ended(start, now, errors + stop, tentative, tentative != [], tentative, refused, t)
    ensures |tentative| + |refused| == n
  {
    hide Attempts;
    TouchesChain(start.db, before.db, now.db, t);
  }

  /** The candidate plays. */
  lemma EndRunning(start: Moment, before: Moment, now: Moment, errors: Errors, tentative: seq<string>, refused: seq<string>,
                   n: nat, t: int, path: string, played: bool)
    requires Underway(start, before, errors, tentative, refused, n, t)
    requires now.blocked == before.blocked && Touches(before.db, now.db, t) && path !in before.blocked
    requires now.given == before.given + Handed(LoopRole, if played then [path] else []) && now.refusals == before.refusals
    requires !played ==> now.loop == before.loop && now.source == before.source
    ensures path !in start.blocked
    ensures var tried := tentative + (if played then [path] else []);
      Ended(start, now, {}, tentative, tentative != [], tried, refused, t) && |tried| + |refused| <= n + 1
    ensures !played && now.loop != NO_LOOP ==> now.loop == start.loop && now.source == start.source
    ensures path !in tentative && (tentative == [] ==> before.loop == start.loop)
  {
    OneMoreTried(before.blocked, start.blocked, tentative, refused, path);
    assert tentative + [] == tentative;
    HandedMore(LoopRole, tentative, path);
    hide Attempts, LoopAfter;
    TouchesChain(start.db, before.db, now.db, t);
  }

  /** The candidate was found unfit before OBS saw it. */
  lemma OneMoreUnfit(start: Moment, before: Moment, now: Moment, errors: Errors, tentative: seq<string>,
                     refused: seq<string>, n: nat, t: int, path: string)
    requires Underway(start, before, errors, tentative, refused, n, t)
    requires now.blocked == before.blocked + {path} && Touches(before.db, now.db, t) && path !in before.blocked
    requires now.given == before.given + Handed(LoopRole, []) && now.refusals == before.refusals + [path]
    requires LoopAfter({}, now.loop, now.source, before.loop, before.source)
    ensures Underway(start, now, errors, tentative, refused + [path], n + 1, t)
  {
    OneMoreBlocked(before.blocked, start.blocked, tentative, refused, path);
    TouchesChain(start.db, before.db, now.db, t);
    hide Attempts, Touches;
  }

  /** OBS did not play the candidate, or was not even asked in time. */
  lemma OneMoreRejected(start: Moment, before: Moment, now: Moment, errors: Errors, tentative: seq<string>,
                        refused: seq<string>, n: nat, t: int, path: string, cause: Errors)
    requires Underway(start, before, errors, tentative, refused, n, t)
    requires now.blocked == before.blocked && Touches(before.db, now.db, t) && path !in before.blocked
    requires now.given == before.given + Handed(LoopRole, if cause == {Cancelled} then [] else [path])
    requires now.refusals == before.refusals
    requires LoopAfter(cause, now.loop, now.source, before.loop, before.source) && cause != {}
    requires cause <= {PlayFailed, Mutated, CleanupFailed, Cancelled}
    ensures var tried := tentative + (if cause == {Cancelled} then [] else [path]);
      && Ended(start, now, errors + cause, tentative, true, tried, refused, t)
      && |tried| + |refused| <= n + 1
    ensures cause <= {PlayFailed, Mutated} ==>
      Underway(start, now.(blocked := now.blocked + {path}), errors + cause, tentative + [path], refused, n + 1, t)
  {
    OneMoreTried(before.blocked, start.blocked, tentative, refused, path);
    assert tentative + [] == tentative;
    HandedMore(LoopRole, tentative, path);
    TouchesChain(start.db, before.db, now.db, t);
    hide Attempts, Touches;
  }

  /** What an error says about the loop source. */
  predicate LoopAfter(err: Errors, loop: ActiveLoop, source: Source, loop0: ActiveLoop, source0: Source) {
    && (Mutated in err && CleanupFailed !in err ==> loop == NO_LOOP && !source.running)
    && (Mutated !in err ==> loop == loop0 && source == source0)
  }

  lemma LibraryGivesPaths(lib: Library)
    requires LibraryOk(lib)
    ensures forall l | l in lib.loops :: l.path != ""
  {
  }

  /** Random choice always has a possible outcome. */
  lemma SomeSuitable(lib: Library, blocked: set<string>, period: Period, theme: string) returns (choice: Option<Loop>)
    ensures Suitable(lib, blocked, period, theme, choice)
  {
    if theme != "" && Offers(lib, blocked, period, theme) {
      var l :| l in lib.loops && l.path !in blocked && l.period == period && l.theme == theme;
      return Some(l);
    }
    if Covers(lib, blocked, period) {
      var l :| l in lib.loops && l.path !in blocked && l.period == period;
      return Some(l);
    }
    choice := None;
  }

  lemma NothingSuitable(lib: Library, blocked: set<string>, period: Period, theme: string)
    requires Suitable(lib, blocked, period, theme, None)
    ensures !Covers(lib, blocked, period)
  {
  }

  lemma SuitableIsPlayable(lib: Library, blocked: set<string>, period: Period, theme: string, choice: Option<Loop>)
    requires Suitable(lib, blocked, period, theme, choice) && choice.Some?
    ensures Playable(lib, blocked, choice.value)
  {
  }
}
