/**
 The playback decisions that survive a restart: overrides by date, plans by date
 and period, and the last music started. Every statement may fail, and a failed
 one may still have been applied.
 */
module LibraryState {
  import opened Results
  import opened Periods

  datatype Override = Override(theme: string, direct: string)

  const NO_OVERRIDE := Override("", "")

  datatype Plan = Plan(theme: string, loopID: string)

  datatype Db = Db(overrides: map<int, Override>, plans: map<PlanKey, Plan>, lastMusic: string)

  /** A missing row reads as the blank override. */
  function OverrideAt(db: Db, date: int): Override {
    if date in db.overrides then db.overrides[date] else NO_OVERRIDE
  }

  function PlanAt(db: Db, key: PlanKey): Option<Plan> {
    if key in db.plans then Some(db.plans[key]) else None
  }

  function ClearedDirect(db: Db, date: int): Db {
    db.(overrides := db.overrides[date := OverrideAt(db, date).(direct := "")])
  }

  function ClearedPlan(db: Db, key: PlanKey): Db { db.(plans := db.plans - {key}) }

  function ClearedBoth(db: Db, date: int, key: PlanKey): Db {
    db.(overrides := db.overrides - {date}, plans := db.plans - {key})
  }

  function Saved(db: Db, key: PlanKey, plan: Plan): Db { db.(plans := db.plans[key := plan]) }

  function Restored(db: Db, date: int, override: Override, key: PlanKey, plan: Option<Plan>): Db {
    db.(overrides := if override == NO_OVERRIDE then db.overrides - {date} else db.overrides[date := override],
        plans := if plan.Some? then db.plans[key := plan.value] else db.plans - {key})
  }

  /** What a statement leaves behind: its effect, or after an error perhaps nothing. */
  predicate Settles(before: Db, intended: Db, after: Db, ok: bool) {
    after == intended || (!ok && after == before)
  }

  class StateStore {
    var overrides: map<int, Override>
    var plans: map<PlanKey, Plan>
    var lastMusic: string
    /** How many calls have failed so far. */
    ghost var faults: nat

    constructor (db: Db)
      ensures Contents() == db && faults == 0
    {
      overrides, plans, lastMusic, faults := db.overrides, db.plans, db.lastMusic, 0;
    }

    function Contents(): Db
      reads this
    {
      Db(overrides, plans, lastMusic)
    }

    /** Whether a call succeeds. */
    method Succeeds() returns (ok: bool)
      modifies this`faults
      ensures if ok then faults == old(faults) else faults == old(faults) + 1
    {
      ok := *;
      if !ok { faults := faults + 1; }
    }

    method OverrideFor(date: int) returns (override: Option<Override>)
      modifies this`faults
      ensures override.Some? ==> override.value == OverrideAt(Contents(), date)
      ensures if override.Some? then faults == old(faults) else faults == old(faults) + 1
    {
      var ok := Succeeds();
      if !ok { return None; }
      override := Some(if date in overrides then overrides[date] else NO_OVERRIDE);
    }

    method PeriodPlan(key: PlanKey) returns (plan: Option<Option<Plan>>)
      modifies this`faults
      ensures plan.Some? ==> plan.value == PlanAt(Contents(), key)
      ensures if plan.Some? then faults == old(faults) else faults == old(faults) + 1
    {
      var ok := Succeeds();
      if !ok { return None; }
      plan := Some(if key in plans then Some(plans[key]) else None);
    }

    method ClearDirectLoopOverride(date: int) returns (ok: bool)
      modifies this
      ensures Settles(old(Contents()), ClearedDirect(old(Contents()), date), Contents(), ok)
      ensures if ok then faults == old(faults) else faults == old(faults) + 1
    {
      ok := Succeeds();
      if !ok { if * { return; } }
      overrides := overrides[date := if date in overrides then overrides[date].(direct := "") else NO_OVERRIDE];
    }

    method SavePeriodPlan(key: PlanKey, plan: Plan) returns (ok: bool)
      modifies this
      ensures Settles(old(Contents()), Saved(old(Contents()), key, plan), Contents(), ok)
      ensures if ok then faults == old(faults) else faults == old(faults) + 1
    {
      ok := Succeeds();
      if !ok { if * { return; } }
      plans := plans[key := plan];
    }

    method ClearPeriodPlan(key: PlanKey) returns (ok: bool)
      modifies this
      ensures Settles(old(Contents()), ClearedPlan(old(Contents()), key), Contents(), ok)
      ensures if ok then faults == old(faults) else faults == old(faults) + 1
    {
      ok := Succeeds();
      if !ok { if * { return; } }
      plans := plans - {key};
    }

    /** Two deletions in one transaction: both are applied, or neither. */
    method ClearOverrideAndPeriodPlan(date: int, key: PlanKey) returns (ok: bool)
      modifies this
      ensures Settles(old(Contents()), ClearedBoth(old(Contents()), date, key), Contents(), ok)
      ensures if ok then faults == old(faults) else faults == old(faults) + 1
    {
      var stagedOverrides, stagedPlans := overrides, plans;
      ok := Succeeds();
      if !ok { if * { return; } }
      stagedOverrides := stagedOverrides - {date};
      stagedPlans := stagedPlans - {key};
      overrides, plans := stagedOverrides, stagedPlans;
    }

    /** The rollback of a failed activation, in one transaction. */
    method RestorePlaybackSelection(date: int, override: Override, key: PlanKey, plan: Option<Plan>) returns (ok: bool)
      modifies this
      ensures Settles(old(Contents()), Restored(old(Contents()), date, override, key, plan), Contents(), ok)
      ensures if ok then faults == old(faults) else faults == old(faults) + 1
    {
      var stagedOverrides, stagedPlans := overrides, plans;
      ok := Succeeds();
      if !ok { if * { return; } }
      if override.theme == "" && override.direct == "" {
        stagedOverrides := stagedOverrides - {date};
      } else {
        stagedOverrides := stagedOverrides[date := override];
      }
      if plan.Some? {
        stagedPlans := stagedPlans[key := plan.value];
      } else {
        stagedPlans := stagedPlans - {key};
      }
      overrides, plans := stagedOverrides, stagedPlans;
    }

    method LastMusicID() returns (id: Option<string>)
      modifies this`faults
      ensures id.Some? ==> id.value == lastMusic
      ensures if id.Some? then faults == old(faults) else faults == old(faults) + 1
    {
      var ok := Succeeds();
      id := if ok then Some(lastMusic) else None;
    }

    method SetLastMusicID(id: string) returns (ok: bool)
      modifies this
      ensures Settles(old(Contents()), old(Contents()).(lastMusic := id), Contents(), ok)
      ensures if ok then faults == old(faults) else faults == old(faults) + 1
    {
      ok := Succeeds();
      if !ok { if * { return; } }
      lastMusic := id;
    }
  }
}
