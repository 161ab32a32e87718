/** Every change of a public view is broadcast, and what is broadcast is current. */
module Announcements {
  import opened Lists
  import opened Wrappers
  import opened Devices
  import opened Registry
  import opened Operations
  import opened Scenes
  import opened Traces
  import opened Structure
  import opened Versions

  ghost predicate AllCurrent(reg: Reg, views: seq<PublicDevice>) {
    forall v <- views :: v.id in reg.devices && v == Public(reg, v.id)
  }

  /** The device kept its view, or its new view is among those announced. */
  ghost predicate Accounted(reg: Reg, after: Reg, views: seq<PublicDevice>, id: string)
    requires id in after.devices
  {
    (id in reg.devices && Public(after, id) == Public(reg, id)) || Public(after, id) in views
  }

  ghost predicate KeysAreIds(reg: Reg) {
    forall id <- reg.devices :: reg.devices[id].id == id
  }

  lemma OkKeysAreIds(reg: Reg)
    requires RegOk(reg)
    ensures KeysAreIds(reg)
  {
    forall id <- reg.devices ensures reg.devices[id].id == id { assert DeviceFits(reg, id); }
  }

  // ----- scenes

  lemma {:induction false} SceneViewsCurrent(reg: Reg, details: seq<Detail>)
    requires KeysAreIds(reg)
    ensures AllCurrent(reg, SceneViews(reg, details))
    decreases |details|
  {
    if details != [] { SceneViewsCurrent(reg, details[..|details| - 1]); }
  }

  lemma {:induction false} SceneViewsContain(reg: Reg, details: seq<Detail>, i: nat)
    requires i < |details| && details[i].success && details[i].deviceId in reg.devices
    ensures Public(reg, details[i].deviceId) in SceneViews(reg, details)
    decreases |details|
  {
    if i < |details| - 1 { SceneViewsContain(reg, details[..|details| - 1], i); }
  }

  lemma OkKindFits(reg: Reg, id: string)
    requires RegOk(reg) && id in reg.devices
    ensures KindFits(reg.devices[id].kind, reg.devices[id].body)
  {
    assert DeviceFits(reg, id);
    var kind := reg.devices[id].kind;
    if kind in BUILTIN_KINDS {
      assert Some(reg.drivers[kind].family) == BuiltinFamily(kind);
    } else {
      OtherKind(kind, reg.devices[id].body);
    }
  }

  lemma OtherKind(kind: string, b: Body)
    requires kind !in BUILTIN_KINDS
    ensures KindFits(kind, b)
  {
  }

  lemma OkHomeTargets(reg: Reg)
    requires RegOk(reg)
    ensures HomeTargets(reg)
  {
    OkKindFits(reg, "light-living-01");
    OkKindFits(reg, "ac-living-01");
    OkKindFits(reg, "door-entry-01");
  }

  /** What the scene theorems ask of the registry holds at every moment of every run. */
  lemma ScenesApply(reg: Reg, ops: seq<Op>, n: nat)
    requires RegOk(reg) && SoundRun(reg, ops) && n <= |ops|
    ensures var now := At(reg, ops, n);
      && Listed(now) && HomeTargets(now)
      && forall id <- now.devices :: KindFits(now.devices[id].kind, now.devices[id].body)
  {
    RunOk(reg, ops, n);
    hide RegOk, At, HomeTargets, KindFits;
    var now := At(reg, ops, n);
    OkHomeTargets(now);
    forall id <- now.devices
      ensures KindFits(now.devices[id].kind, now.devices[id].body)
    {
      OkKindFits(now, id);
    }
  }

  lemma SameButPending(d: Device, e: Device, categories: map<string, Category>)
    requires e == d.(failNextCommand := e.failNextCommand)
    ensures PublicView(e, categories) == PublicView(d, categories)
  {
  }

  lemma AwayAccounted(reg: Reg, now: int, id: string)
    requires RegOk(reg) && id in reg.devices
    ensures var run := ExecuteAway(reg, now);
      id in run.reg.devices && Accounted(reg, run.reg, SceneViews(run.reg, run.details), id)
  {
    forall x <- reg.devices ensures KindFits(reg.devices[x].kind, reg.devices[x].body) { OkKindFits(reg, x); }
    RunSceneListed(reg, AwayPlans(reg.devices, reg.order), now);
    hide RegOk, ExecuteAway, Listed;
    RegOkListed(reg);
    AwayScene(reg, now);
    var run := ExecuteAway(reg, now);
    AwayCategories(reg, now);
    var ids := AwayIds(reg.devices, reg.order);
    if id in ids {
      var i :| 0 <= i < |ids| && ids[i] == id;
      if run.details[i].success { SceneViewsContain(run.reg, run.details, i); }
      else { SameButPending(reg.devices[id], run.reg.devices[id], reg.categories); }
    }
  }

  lemma AwayCategories(reg: Reg, now: int)
    ensures ExecuteAway(reg, now).reg.categories == reg.categories
    ensures ExecuteHome(reg, now).reg.categories == reg.categories
  {
    RunSceneListed(reg, AwayPlans(reg.devices, reg.order), now);
    RunSceneListed(reg, HOME_PLANS, now);
  }

  lemma HomeAccounted(reg: Reg, now: int, id: string)
    requires RegOk(reg) && id in reg.devices
    ensures var run := ExecuteHome(reg, now);
      id in run.reg.devices && Accounted(reg, run.reg, SceneViews(run.reg, run.details), id)
  {
    OkHomeTargets(reg);
    HomePlansDistinct();
    hide RegOk, ExecuteHome;
    HomeScene(reg, now);
    AwayCategories(reg, now);
    var run := ExecuteHome(reg, now);
    assert id in run.reg.devices.Keys;
    if Planned(HOME_PLANS, id) {
      var i :| 0 <= i < |HOME_PLANS| && HOME_PLANS[i].deviceId == id;
      if run.details[i].success { SceneViewsContain(run.reg, run.details, i); }
      else { SameButPending(reg.devices[id], run.reg.devices[id], reg.categories); }
    }
  }

  // ----- ticks

  lemma TickedCurrent(reg: Reg, id: string, now: int, forecast: Forecast)
    requires KeysAreIds(reg) && id in reg.devices
    ensures KeysAreIds(TickDevice(reg, id, now, forecast))
    ensures Public(TickDevice(reg, id, now, forecast), id).id == id
    ensures forall x <- reg.devices :: x != id ==> Public(TickDevice(reg, id, now, forecast), x) == Public(reg, x)
  {
    hide BodyTick, SurroundingsOf;
  }

  lemma {:induction false} TickChangedCurrent(reg: Reg, ids: seq<string>, now: int, forecast: Forecast)
    requires Distinct(ids) && KeysAreIds(reg)
    requires forall id <- ids :: id in reg.devices
    ensures var run := TickFirst(reg, ids, now, forecast);
      && KeysAreIds(run.reg)
      && (forall v <- run.changed :: v.id in ids && v == Public(run.reg, v.id))
    decreases |ids|
  {
    hide TickDevice, ReportsChange, PublicView, KeysAreIds;
    if ids != [] {
      var front, id := ids[..|ids| - 1], ids[|ids| - 1];
      TickChangedCurrent(reg, front, now, forecast);
      assert id !in front && ids == front + [id];
      var before := TickFirst(reg, front, now, forecast);
      TickedCurrent(before.reg, id, now, forecast);
    }
  }

  lemma {:induction false} TickAccounted(reg: Reg, ids: seq<string>, now: int, forecast: Forecast, id: string)
    requires Distinct(ids) && KeysAreIds(reg)
    requires forall x <- ids :: x in reg.devices
    requires id in reg.devices && BodyOk(reg.devices[id].body)
    ensures var run := TickFirst(reg, ids, now, forecast);
      Accounted(reg, run.reg, run.changed, id)
    decreases |ids|
  {
    if ids != [] {
      var front, last := ids[..|ids| - 1], ids[|ids| - 1];
      TickAccounted(reg, front, now, forecast, id);
      if last == id {
        TickElsewhere(reg, front, now, forecast, id);
        var before := TickFirst(reg, front, now, forecast).reg;
        var d := reg.devices[id];
        QuietTickInvisible(d.body, d.online, now, SurroundingsOf(before, d), WeatherAt(forecast, id));
        TickFirstListed(reg, front, now, forecast);
      }
    }
  }

  // ----- any operation

  /** The gateway's own operations; drivers are only registered before clients connect. */
  predicate Served(op: Op) {
    !op.AddDriver?
  }

  lemma CommandCurrent(reg: Reg, op: Op)
    requires Listed(reg) && op.Command? && KeysAreIds(reg) && KeysAreIds(Step(reg, op))
    ensures AllCurrent(Step(reg, op), Perform(reg, op).announced)
  {
    if op.target == "scene-away" {
      if op.action == "executeAway" {
        SceneViewsCurrent(Step(reg, op), ExecuteAway(reg, op.now).details);
      }
    } else if op.target == "scene-home" {
      if op.action == "executeHome" {
        SceneViewsCurrent(Step(reg, op), ExecuteHome(reg, op.now).details);
      }
    }
  }

  lemma OneViewCurrent(reg: Reg, op: Op)
    requires Listed(reg) && (op.Fault? || op.Inject? || op.Register?)
    requires KeysAreIds(reg) && KeysAreIds(Step(reg, op))
    ensures AllCurrent(Step(reg, op), Perform(reg, op).announced)
  {
  }

  lemma AnnouncedAreCurrent(reg: Reg, op: Op)
    requires RegOk(reg) && Served(op)
    ensures AllCurrent(Step(reg, op), Perform(reg, op).announced)
  {
    StepOk(reg, op);
    OkKeysAreIds(reg);
    OkKeysAreIds(Step(reg, op));
    hide RegOk;
    RegOkListed(reg);
    match op
    case Command(_, _, _, _, _) => CommandCurrent(reg, op);
    case TickAll(now, forecast) => TickChangedCurrent(reg, TickOrder(reg), now, forecast);
    case Fault(_, _, _) => OneViewCurrent(reg, op);
    case Inject(_, _) => OneViewCurrent(reg, op);
    case Register(_, _) => OneViewCurrent(reg, op);
    case _ =>
  }

  lemma DirectCommandAccounted(reg: Reg, op: Op, id: string)
    requires RegOk(reg) && op.Command? && !Scene(op.target) && id in reg.devices
    ensures id in Step(reg, op).devices
    ensures Accounted(reg, Step(reg, op), Perform(reg, op).announced, id) <==> !SilentlyWrites(reg, op, id)
  {
    hide Ticked, Injected, Obstacle, TouchedByFaults, Attested, ExecuteHome, AwayPlans, Distinct, BodyOk;
    assert DeviceFits(reg, id);
    if id == op.target {
      FailedEffectInvisible(reg.devices[id].body, op.action, op.payload, op.now);
    }
  }

  lemma CommandAccounted(reg: Reg, op: Op, id: string)
    requires RegOk(reg) && op.Command? && id in Step(reg, op).devices
    ensures Accounted(reg, Step(reg, op), Perform(reg, op).announced, id) <==> !SilentlyWrites(reg, op, id)
  {
    hide HomeDevices, TablesFit, BuiltinTables, PublicView, Commanded, RunOrders, ExecuteAway, SilentWrite;
    ExecuteListed(reg, op.target, op.action, op.payload, op.expected, op.now);
    assert id in reg.devices.Keys;
    if op.target == "scene-away" {
      if op.action == "executeAway" { AwayAccounted(reg, op.now, id); }
    } else if op.target == "scene-home" {
      if op.action == "executeHome" { HomeAccounted(reg, op.now, id); }
    } else {
      DirectCommandAccounted(reg, op, id);
    }
  }

  lemma FaultAccounted(reg: Reg, op: Op, id: string)
    requires RegOk(reg) && op.Fault? && id in Step(reg, op).devices
    ensures Accounted(reg, Step(reg, op), Perform(reg, op).announced, id)
  {
    hide HomeDevices, TablesFit, BuiltinTables, BodyOk;
    if id in reg.devices { assert DeviceFits(reg, id); }
  }

  lemma InjectAccounted(reg: Reg, op: Op, id: string)
    requires RegOk(reg) && op.Inject? && id in Step(reg, op).devices
    ensures Accounted(reg, Step(reg, op), Perform(reg, op).announced, id)
  {
    hide HomeDevices, TablesFit, BuiltinTables, BodyOk;
    if id in reg.devices { assert DeviceFits(reg, id); }
  }

  /** A served operation changes a public view without announcing the new one exactly when it writes silently. */
  lemma ChangesAreAnnounced(reg: Reg, op: Op, id: string)
    requires RegOk(reg) && Served(op) && id in Step(reg, op).devices
    ensures Accounted(reg, Step(reg, op), Perform(reg, op).announced, id) <==> !SilentlyWrites(reg, op, id)
  {
    hide HomeDevices, TablesFit, BuiltinTables, TickFirst, PublicView, Execute, SilentWrite, InjectFault,
         InjectEnvironment, BodyOk;
    match op
    case Command(_, _, _, _, _) => CommandAccounted(reg, op, id);
    case TickAll(now, forecast) =>
      TickListed(reg, now, forecast);
      assert id in reg.devices.Keys;
      assert DeviceFits(reg, id);
      OkKeysAreIds(reg);
      TickAccounted(reg, TickOrder(reg), now, forecast, id);
    case Fault(_, _, _) => FaultAccounted(reg, op, id);
    case Inject(_, _) => InjectAccounted(reg, op, id);
    case _ =>
  }
}
