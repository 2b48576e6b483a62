/**
 Choosing what to play: the library, random choice among its healthy assets, and
 the choice the scheduler makes for an instant given overrides and stored plans.
 */
module Selection {
  import opened Results
  import opened Periods
  import opened LibraryState

  datatype Loop = Loop(id: string, path: string, theme: string, period: Period)

  datatype Music = Music(id: string, path: string)

  datatype Library = Library(loops: seq<Loop>, music: seq<Music>)

  /** What a scan guarantees: identifiers and paths are given and tell assets of a kind apart. */
  predicate LibraryOk(lib: Library) {
    && (forall l | l in lib.loops :: l.id != "" && l.path != "")
    && (forall l, m | l in lib.loops && m in lib.loops && (l.id == m.id || l.path == m.path) :: l == m)
    && (forall m | m in lib.music :: m.id != "" && m.path != "")
    && (forall m, n | m in lib.music && n in lib.music && (m.id == n.id || m.path == n.path) :: m == n)
  }

  predicate Playable(lib: Library, blocked: set<string>, l: Loop) { l in lib.loops && l.path !in blocked }

  predicate Offers(lib: Library, blocked: set<string>, period: Period, theme: string) {
    exists l | l in lib.loops :: l.path !in blocked && l.period == period && l.theme == theme
  }

  predicate Covers(lib: Library, blocked: set<string>, period: Period) {
    exists l | l in lib.loops :: l.path !in blocked && l.period == period
  }

  // ---- Random choice among playable assets ----

  method AvailableThemes(lib: Library, period: Period) returns (themes: seq<string>)
    ensures forall theme :: theme in themes <==> Offers(lib, {}, period, theme)
    ensures forall i, j | 0 <= i < j < |themes| :: themes[i] != themes[j]
  {
    themes := [];
    for i := 0 to |lib.loops|
      invariant forall theme :: theme in themes <==>
        exists l | l in lib.loops[..i] :: l.period == period && l.theme == theme
      invariant forall i, j | 0 <= i < j < |themes| :: themes[i] != themes[j]
    {
      var l := lib.loops[i];
      assert lib.loops[..i + 1] == lib.loops[..i] + [l];
      if l.period == period && l.theme !in themes {
        themes := themes + [l.theme];
      }
    }
    assert lib.loops[..|lib.loops|] == lib.loops;
  }

  method ChooseTheme(lib: Library, period: Period) returns (theme: Option<string>)
    ensures theme.Some? <==> Covers(lib, {}, period)
    ensures theme.Some? ==> Offers(lib, {}, period, theme.value)
  {
    var themes := AvailableThemes(lib, period);
    if |themes| == 0 {
      forall l | l in lib.loops ensures l.period != period {
        assert l.theme !in themes;
      }
      return None;
    }
    var pick: nat :| pick < |themes|;
    assert themes[pick] in themes;
    theme := Some(themes[pick]);
  }

  method ChooseLoop(lib: Library, period: Period, theme: string) returns (choice: Option<Loop>)
    ensures choice.Some? <==> Offers(lib, {}, period, theme)
    ensures choice.Some? ==>
      choice.value in lib.loops && choice.value.period == period && choice.value.theme == theme
  {
    var candidates: seq<Loop> := [];
    for i := 0 to |lib.loops|
      invariant forall l :: l in candidates <==> l in lib.loops[..i] && l.period == period && l.theme == theme
    {
      var l := lib.loops[i];
      assert lib.loops[..i + 1] == lib.loops[..i] + [l];
      if l.period == period && l.theme == theme {
        candidates := candidates + [l];
      }
    }
    assert lib.loops[..|lib.loops|] == lib.loops;
    if |candidates| == 0 { return None; }
    var pick: nat :| pick < |candidates|;
    assert candidates[pick] in candidates;
    choice := Some(candidates[pick]);
  }

  /** Avoids the previous track whenever another one can be played. */
  method ChooseMusic(lib: Library, previous: string) returns (choice: Option<Music>)
    ensures choice.None? <==> lib.music == []
    ensures choice.Some? ==> choice.value in lib.music
    ensures choice.Some? && previous != "" && choice.value.id == previous ==>
      forall m | m in lib.music :: m.id == previous
  {
    var candidates := lib.music;
    if |candidates| == 0 { return None; }
    if previous != "" && 1 < |candidates| {
      var filtered: seq<Music> := [];
      for i := 0 to |candidates|
        invariant forall m :: m in filtered <==> m in candidates[..i] && m.id != previous
      {
        var m := candidates[i];
        assert candidates[..i + 1] == candidates[..i] + [m];
        if m.id != previous { filtered := filtered + [m]; }
      }
      assert candidates[..|candidates|] == candidates;
      if 0 < |filtered| { candidates := filtered; }
    }
    var pick: nat :| pick < |candidates|;
    assert candidates[pick] in candidates;
    choice := Some(candidates[pick]);
  }

  /** The preferred theme if the period has it, otherwise any theme of the period. */
  predicate Suitable(lib: Library, blocked: set<string>, period: Period, preferred: string, choice: Option<Loop>) {
    match choice
    case None => !Covers(lib, blocked, period)
    case Some(l) =>
      && Playable(lib, blocked, l) && l.period == period
      && (preferred != "" && Offers(lib, blocked, period, preferred) ==> l.theme == preferred)
  }

  method ChooseForPeriod(lib: Library, period: Period, preferred: string) returns (choice: Option<Loop>)
    ensures Suitable(lib, {}, period, preferred, choice)
  {
    if preferred != "" {
      choice := ChooseLoop(lib, period, preferred);
      if choice.Some? { return; }
    }
    var theme := ChooseTheme(lib, period);
    if theme.None? { return None; }
    choice := ChooseLoop(lib, period, theme.value);
  }

  /** `playable` is what is left of `lib` once blocked assets are taken out. */
  predicate Filters(lib: Library, blocked: set<string>, playable: Library) {
    && (forall l | l in playable.loops :: Playable(lib, blocked, l))
    && (forall l | l in lib.loops && l.path !in blocked :: l in playable.loops)
    && (forall m | m in playable.music :: m in lib.music && m.path !in blocked)
    && (forall m | m in lib.music && m.path !in blocked :: m in playable.music)
  }

  lemma FilteredChoice(lib: Library, blocked: set<string>, playable: Library, period: Period, preferred: string,
                       choice: Option<Loop>)
    requires Filters(lib, blocked, playable) && Suitable(playable, {}, period, preferred, choice)
    ensures Suitable(lib, blocked, period, preferred, choice)
  {
  }

  // ---- The choice for an instant ----

  /** The first healthy loop with the identifier. */
  function FindLoop(loops: seq<Loop>, blocked: set<string>, id: string): Option<Loop> {
    if loops == [] then None
    else if loops[0].id == id && loops[0].path !in blocked then Some(loops[0])
    else FindLoop(loops[1..], blocked, id)
  }

  lemma {:induction false} FindLoopFinds(loops: seq<Loop>, blocked: set<string>, id: string)
    ensures FindLoop(loops, blocked, id).Some? ==>
      var l := FindLoop(loops, blocked, id).value; l in loops && l.id == id && l.path !in blocked
    ensures (exists l | l in loops :: l.id == id && l.path !in blocked) ==> FindLoop(loops, blocked, id).Some?
  {
    if loops != [] { FindLoopFinds(loops[1..], blocked, id); }
  }

  predicate CanReuse(lib: Library, blocked: set<string>, period: Period, overrideTheme: string, planTheme: string) {
    overrideTheme == "" || overrideTheme == planTheme || !Offers(lib, blocked, period, overrideTheme)
  }

  /** An early-night instant ends the override of the day before. */
  predicate Expires(db: Db, t: int) { EarlyNight(t) && OverrideAt(db, PlanDate(t)) != NO_OVERRIDE }

  datatype Pick = Pick(loop: Option<Loop>, db: Db)

  /** The choice for `t`, where `choice` is what random choice would come up with if it comes to that. */
  function PickAt(db: Db, lib: Library, blocked: set<string>, t: int, force: bool, choice: Option<Loop>): Pick {
    var key := KeyAt(t);
    var override := OverrideAt(db, DateOf(t));
    var current := if Expires(db, t) then ClearedBoth(db, PlanDate(t), key) else db;
    if override.direct != "" && FindLoop(lib.loops, blocked, override.direct).Some? then
      Pick(FindLoop(lib.loops, blocked, override.direct), current)
    else
      var lapsed := if override.direct != "" then ClearedDirect(current, DateOf(t)) else current;
      var forced := if force then ClearedPlan(lapsed, key) else lapsed;
      PickPlanned(forced, lib, blocked, key, override.theme, !force && !Expires(db, t), choice)
  }

  function PickPlanned(db: Db, lib: Library, blocked: set<string>, key: PlanKey, theme: string,
                       mayReuse: bool, choice: Option<Loop>): Pick {
    var plan := PlanAt(db, key);
    if mayReuse && plan.Some? && CanReuse(lib, blocked, key.period, theme, plan.value.theme) then
      if FindLoop(lib.loops, blocked, plan.value.loopID).Some? then
        Pick(FindLoop(lib.loops, blocked, plan.value.loopID), db)
      else PickFresh(ClearedPlan(db, key), key, choice)
    else PickFresh(db, key, choice)
  }

  function PickFresh(db: Db, key: PlanKey, choice: Option<Loop>): Pick {
    if choice.None? then Pick(None, db)
    else Pick(choice, Saved(db, key, Plan(choice.value.theme, choice.value.id)))
  }

  /** The plan of `key` leads straight to `l` under the given override. */
  predicate Leads(db: Db, lib: Library, blocked: set<string>, key: PlanKey, theme: string, l: Loop) {
    var plan := PlanAt(db, key);
    && plan.Some? && CanReuse(lib, blocked, key.period, theme, plan.value.theme)
    && FindLoop(lib.loops, blocked, plan.value.loopID) == Some(l)
  }

  /** The healthy loop that the identifier of `l` leads to: `l` itself, unless another loop shares its identifier. */
  function Named(lib: Library, blocked: set<string>, l: Loop): Option<Loop> { FindLoop(lib.loops, blocked, l.id) }

  lemma FreshPickLeads(db: Db, lib: Library, blocked: set<string>, key: PlanKey, theme: string, choice: Option<Loop>)
    requires choice.Some? && Suitable(lib, blocked, key.period, theme, choice)
    ensures Named(lib, blocked, choice.value).Some?
    ensures Leads(PickFresh(db, key, choice).db, lib, blocked, key, theme, Named(lib, blocked, choice.value).value)
  {
    FindLoopFinds(lib.loops, blocked, choice.value.id);
  }

  lemma PlannedPickLeads(db: Db, lib: Library, blocked: set<string>, key: PlanKey, theme: string,
                         mayReuse: bool, choice: Option<Loop>)
    requires Suitable(lib, blocked, key.period, theme, choice)
    ensures var p := PickPlanned(db, lib, blocked, key, theme, mayReuse, choice);
      && p.db.overrides == db.overrides && p.db.lastMusic == db.lastMusic
      && (p.loop.Some? ==>
            && Named(lib, blocked, p.loop.value).Some?
            && Leads(p.db, lib, blocked, key, theme, Named(lib, blocked, p.loop.value).value))
  {
    hide Suitable, CanReuse;
    if key in db.plans { FindLoopFinds(lib.loops, blocked, db.plans[key].loopID); }
    if choice.Some? {
      FreshPickLeads(db, lib, blocked, key, theme, choice);
      FreshPickLeads(ClearedPlan(db, key), lib, blocked, key, theme, choice);
    }
  }

  /** After a pick, the direct override stands, or the plan leads to the loop of the picked identifier. */
  lemma PickSettles(db: Db, lib: Library, blocked: set<string>, t: int, force: bool, choice: Option<Loop>)
    requires Suitable(lib, blocked, PeriodAt(t), OverrideAt(db, DateOf(t)).theme, choice)
    requires PickAt(db, lib, blocked, t, force, choice).loop.Some?
    ensures var p := PickAt(db, lib, blocked, t, force, choice);
      var override, named := OverrideAt(p.db, DateOf(t)), Named(lib, blocked, p.loop.value);
      && !Expires(p.db, t) && named.Some?
      && override.theme == OverrideAt(db, DateOf(t)).theme
      && if override.direct != "" then FindLoop(lib.loops, blocked, override.direct) == named
         else Leads(p.db, lib, blocked, KeyAt(t), override.theme, named.value)
  {
    var key := KeyAt(t);
    var override := OverrideAt(db, DateOf(t));
    var current := if Expires(db, t) then ClearedBoth(db, PlanDate(t), key) else db;
    assert OverrideAt(current, DateOf(t)) == override && !Expires(current, t);
    FindLoopFinds(lib.loops, blocked, override.direct);
    if !(override.direct != "" && FindLoop(lib.loops, blocked, override.direct).Some?) {
      var lapsed := if override.direct != "" then ClearedDirect(current, DateOf(t)) else current;
      var forced := if force then ClearedPlan(lapsed, key) else lapsed;
      PlannedPickLeads(forced, lib, blocked, key, override.theme, !force && !Expires(db, t), choice);
      hide PickPlanned, Leads, Suitable;
      assert PickAt(db, lib, blocked, t, force, choice)
          == PickPlanned(forced, lib, blocked, key, override.theme, !force && !Expires(db, t), choice);
    }
  }

  /** A picked loop is healthy, and with unique identifiers its identifier leads back to it. */
  lemma NamesAreUnique(lib: Library, blocked: set<string>, l: Loop)
    requires LibraryOk(lib) && Playable(lib, blocked, l)
    ensures Named(lib, blocked, l) == Some(l)
  {
    FindLoopFinds(lib.loops, blocked, l.id);
  }

  lemma PicksArePlayable(db: Db, lib: Library, blocked: set<string>, t: int, force: bool, choice: Option<Loop>)
    requires Suitable(lib, blocked, PeriodAt(t), OverrideAt(db, DateOf(t)).theme, choice)
    requires PickAt(db, lib, blocked, t, force, choice).loop.Some?
    ensures Playable(lib, blocked, PickAt(db, lib, blocked, t, force, choice).loop.value)
  {
    var key := KeyAt(t);
    FindLoopFinds(lib.loops, blocked, OverrideAt(db, DateOf(t)).direct);
    if key in db.plans { FindLoopFinds(lib.loops, blocked, db.plans[key].loopID); }
  }

  /** A pick without force that finds a settled state repeats it and writes nothing. */
  lemma SettledPickRepeats(db: Db, lib: Library, blocked: set<string>, t: int, choice: Option<Loop>, l: Loop)
    requires !Expires(db, t)
    requires var override := OverrideAt(db, DateOf(t));
      if override.direct != "" then FindLoop(lib.loops, blocked, override.direct) == Some(l)
      else Leads(db, lib, blocked, KeyAt(t), override.theme, l)
    ensures PickAt(db, lib, blocked, t, false, choice) == Pick(Some(l), db)
  {
  }

  /**
   With library, health and overrides unchanged, asking again writes nothing and gives the loop that the
   identifier of the first pick leads to: for any library, the same loop exactly if that leads back to it.
   */
  lemma SecondPickExactly(db: Db, lib: Library, blocked: set<string>, t: int, force: bool,
                          choice: Option<Loop>, again: Option<Loop>)
    requires Suitable(lib, blocked, PeriodAt(t), OverrideAt(db, DateOf(t)).theme, choice)
    requires PickAt(db, lib, blocked, t, force, choice).loop.Some?
    ensures var first := PickAt(db, lib, blocked, t, force, choice);
            var second := PickAt(first.db, lib, blocked, t, false, again);
            && second.db == first.db && second.loop == Named(lib, blocked, first.loop.value)
            && (second == first <==> Named(lib, blocked, first.loop.value) == first.loop)
  {
    PickSettles(db, lib, blocked, t, force, choice);
    var first := PickAt(db, lib, blocked, t, force, choice);
    var named := Named(lib, blocked, first.loop.value);
    hide PickAt, Leads, Suitable, Named;
    SettledPickRepeats(first.db, lib, blocked, t, again, named.value);
  }

  /** In a library whose identifiers are unique the second pick is the first. */
  lemma SecondPickIsTheFirst(db: Db, lib: Library, blocked: set<string>, t: int, force: bool,
                             choice: Option<Loop>, again: Option<Loop>)
    requires LibraryOk(lib)
    requires Suitable(lib, blocked, PeriodAt(t), OverrideAt(db, DateOf(t)).theme, choice)
    requires PickAt(db, lib, blocked, t, force, choice).loop.Some?
    ensures var first := PickAt(db, lib, blocked, t, force, choice);
            PickAt(first.db, lib, blocked, t, false, again) == first
  {
    SecondPickExactly(db, lib, blocked, t, force, choice, again);
    PicksArePlayable(db, lib, blocked, t, force, choice);
    var first := PickAt(db, lib, blocked, t, force, choice);
    hide PickAt, Suitable, Named, LibraryOk;
    NamesAreUnique(lib, blocked, first.loop.value);
  }

  predicate NoOverrides(db: Db) { forall date | date in db.overrides :: db.overrides[date] == NO_OVERRIDE }

  lemma PickKeepsNoOverrides(db: Db, lib: Library, blocked: set<string>, t: int, force: bool, choice: Option<Loop>)
    requires NoOverrides(db)
    ensures PickAt(db, lib, blocked, t, force, choice).db.overrides == db.overrides
  {
  }

  /**
   Without overrides one occurrence of a period gets one pick, midnight or not: a
   loop picked for some instant, for instance by a preview made beforehand, is the
   loop picked at every other instant of that occurrence.
   */
  lemma OnePickPerOccurrence(db: Db, lib: Library, blocked: set<string>, t: int, force: bool, choice: Option<Loop>,
                             u: int, again: Option<Loop>)
    requires LibraryOk(lib) && NoOverrides(db) && SameOccurrence(t, u)
    requires Suitable(lib, blocked, PeriodAt(t), "", choice)
    requires PickAt(db, lib, blocked, t, force, choice).loop.Some?
    ensures var first := PickAt(db, lib, blocked, t, force, choice);
            PickAt(first.db, lib, blocked, u, false, again) == first
  {
    KeyNamesOccurrence(t, u);
    PickSettles(db, lib, blocked, t, force, choice);
    PickKeepsNoOverrides(db, lib, blocked, t, force, choice);
    PicksArePlayable(db, lib, blocked, t, force, choice);
    var first := PickAt(db, lib, blocked, t, force, choice);
    NamesAreUnique(lib, blocked, first.loop.value);
    hide PickAt, Leads, Suitable, KeyAt, SameOccurrence, Named;
    SettledPickRepeats(first.db, lib, blocked, u, again, first.loop.value);
  }

  /** The preview of the next period, made at `t`, holds for every instant of that period. */
  lemma PreviewIsPlayed(db: Db, lib: Library, blocked: set<string>, t: int, choice: Option<Loop>,
                        u: int, again: Option<Loop>)
    requires LibraryOk(lib) && NoOverrides(db)
    requires Suitable(lib, blocked, PeriodAt(t).Next(), "", choice)
    ensures var preview := PickAt(db, lib, blocked, PeriodEnd(t), false, choice);
      preview.loop.Some? && PeriodEnd(t) <= u < PeriodEnd(PeriodEnd(t)) ==>
        PickAt(preview.db, lib, blocked, u, false, again) == preview
  {
    var preview := PickAt(db, lib, blocked, PeriodEnd(t), false, choice);
    EndStartsTheNext(t);
    hide PickAt, Suitable, SameOccurrence;
    if preview.loop.Some? && PeriodEnd(t) <= u < PeriodEnd(PeriodEnd(t)) {
      SteadyUntilEnd(PeriodEnd(t), u);
      KeyNamesOccurrence(PeriodEnd(t), u);
      OnePickPerOccurrence(db, lib, blocked, PeriodEnd(t), false, choice, u, again);
    }
  }

  /** An override made for one day is not carried over midnight: the night is picked afresh. */
  lemma OverrideEndsAtMidnight(db: Db, lib: Library, blocked: set<string>, t: int, choice: Option<Loop>)
    requires LibraryOk(lib) && EarlyNight(t) && OverrideAt(db, PlanDate(t)) != NO_OVERRIDE
    requires OverrideAt(db, DateOf(t)) == NO_OVERRIDE
    ensures var p := PickAt(db, lib, blocked, t, false, choice);
      && p.loop == choice && OverrideAt(p.db, PlanDate(t)) == NO_OVERRIDE
      && PlanAt(p.db, KeyAt(t)) == if choice.Some? then Some(Plan(choice.value.theme, choice.value.id)) else None
  {
  }

  // ---- What a pick plays ----

  /** Some healthy loop has the identifier. */
  predicate Healthy(lib: Library, blocked: set<string>, id: string) {
    exists l | l in lib.loops :: l.id == id && l.path !in blocked
  }

  /** After midnight something was still ordered for the day before. */
  predicate StaleOrder(db: Db, t: int) {
    && t % 86400 < 21600 && t / 86400 - 1 in db.overrides
    && (db.overrides[t / 86400 - 1].theme != "" || db.overrides[t / 86400 - 1].direct != "")
  }

  /** The stored plan is still good: its loop is healthy, and it has the theme asked for unless no loop of it is left. */
  predicate PlanServes(db: Db, lib: Library, blocked: set<string>, t: int) {
    && KeyAt(t) in db.plans && Healthy(lib, blocked, db.plans[KeyAt(t)].loopID)
    && var theme := OverrideAt(db, DateOf(t)).theme;
       theme == "" || db.plans[KeyAt(t)].theme == theme
       || forall l | l in lib.loops && l.period == PeriodAt(t) && l.theme == theme :: l.path in blocked
  }

  lemma HealthyIsFound(lib: Library, blocked: set<string>, id: string)
    ensures Healthy(lib, blocked, id) <==> FindLoop(lib.loops, blocked, id).Some?
    ensures FindLoop(lib.loops, blocked, id).Some? ==> FindLoop(lib.loops, blocked, id).value.id == id
  {
    FindLoopFinds(lib.loops, blocked, id);
  }

  lemma StaleOrderExpires(db: Db, t: int)
    ensures StaleOrder(db, t) <==> Expires(db, t)
  {
    Split(t);
  }

  /** What may still reuse the plan once direct override and expiry are dealt with. */
  lemma PlannedPickObeys(db: Db, lib: Library, blocked: set<string>, t: int, theme: string, mayReuse: bool,
                         choice: Option<Loop>)
    requires theme == OverrideAt(db, DateOf(t)).theme
    ensures var p := PickPlanned(db, lib, blocked, KeyAt(t), theme, mayReuse, choice);
      && (if mayReuse && PlanServes(db, lib, blocked, t)
          then p.loop.Some? && p.loop.value.id == db.plans[KeyAt(t)].loopID && p.db == db
          else p.loop == choice && p.db.overrides == db.overrides && p.db.lastMusic == db.lastMusic
               && (choice.Some? ==> p.db.plans == db.plans[KeyAt(t) := Plan(choice.value.theme, choice.value.id)])
               && (choice.None? ==> p.db.plans in {db.plans, db.plans - {KeyAt(t)}}))
  {
    if KeyAt(t) in db.plans { HealthyIsFound(lib, blocked, db.plans[KeyAt(t)].loopID); }
    hide FindLoop, Healthy, KeyAt;
    assert OverrideAt(db, DateOf(t)).theme == theme;
  }

  /**
   What a pick plays and leaves stored: a healthy direct override wins over everything; otherwise the plan
   as long as it serves and nothing new was demanded; otherwise the random choice, which becomes the plan.
   */
  lemma PickObeysOrders(db: Db, lib: Library, blocked: set<string>, t: int, force: bool, choice: Option<Loop>)
    ensures var o, stale := OverrideAt(db, DateOf(t)), StaleOrder(db, t);
            var direct := o.direct != "" && Healthy(lib, blocked, o.direct);
            var planned := !force && !stale && PlanServes(db, lib, blocked, t);
            var p := PickAt(db, lib, blocked, t, force, choice);
      && (if direct then p.loop.Some? && p.loop.value.id == o.direct
          else if planned then p.loop.Some? && p.loop.value.id == db.plans[KeyAt(t)].loopID
          else p.loop == choice)
      && OverrideAt(p.db, DateOf(t)) == Override(o.theme, if direct then o.direct else "")
      && (stale ==> OverrideAt(p.db, DateOf(t) - 1) == Override("", ""))
      && (forall date | date != DateOf(t) && !(stale && date == DateOf(t) - 1) ::
            OverrideAt(p.db, date) == OverrideAt(db, date))
      && (direct ==> PlanAt(p.db, KeyAt(t)) == if stale then None else PlanAt(db, KeyAt(t)))
      && (!direct && planned ==> PlanAt(p.db, KeyAt(t)) == PlanAt(db, KeyAt(t)))
      && (!direct && !planned && choice.Some? ==>
            PlanAt(p.db, KeyAt(t)) == Some(Plan(choice.value.theme, choice.value.id)))
      && (forall key | key != KeyAt(t) :: PlanAt(p.db, key) == PlanAt(db, key))
      && p.db.lastMusic == db.lastMusic
  {
    var key, o := KeyAt(t), OverrideAt(db, DateOf(t));
    HealthyIsFound(lib, blocked, o.direct);
    StaleOrderExpires(db, t);
    hide FindLoop, Healthy, StaleOrder;
    var current := if Expires(db, t) then ClearedBoth(db, PlanDate(t), key) else db;
    if !(o.direct != "" && FindLoop(lib.loops, blocked, o.direct).Some?) {
      var lapsed := if o.direct != "" then ClearedDirect(current, DateOf(t)) else current;
      var forced := if force then ClearedPlan(lapsed, key) else lapsed;
      PlannedPickObeys(forced, lib, blocked, t, o.theme, !force && !Expires(db, t), choice);
      hide PickPlanned;
    }
  }

  // ---- The right period ----

  /** Whatever the plan for `t` names belongs to the period of `t`. */
  predicate PlanFits(db: Db, lib: Library, t: int) {
    KeyAt(t) in db.plans ==> forall l | l in lib.loops && l.id == db.plans[KeyAt(t)].loopID :: l.period == PeriodAt(t)
  }

  /** The loop belongs to the period of `t`, or was ordered directly for that day. */
  predicate Belongs(db: Db, t: int, l: Loop) {
    l.period == PeriodAt(t) || l.id == OverrideAt(db, DateOf(t)).direct
  }

  /** A plan that fits keeps fitting, and a loop of another period is never picked unless it was ordered directly. */
  lemma PickFitsPeriod(db: Db, lib: Library, blocked: set<string>, t: int, force: bool, choice: Option<Loop>)
    requires LibraryOk(lib) && PlanFits(db, lib, t)
    requires Suitable(lib, blocked, PeriodAt(t), OverrideAt(db, DateOf(t)).theme, choice)
    ensures var p := PickAt(db, lib, blocked, t, force, choice);
      PlanFits(p.db, lib, t) && (p.loop.Some? ==> Belongs(db, t, p.loop.value))
  {
    PickObeysOrders(db, lib, blocked, t, force, choice);
    var p := PickAt(db, lib, blocked, t, force, choice);
    if p.loop.Some? { PicksArePlayable(db, lib, blocked, t, force, choice); }
    hide PickAt, FindLoop, StaleOrder, KeyAt, PeriodAt;
  }
}
