/**
 * stateVersion as a name for a public view: when it is faithful, and what optimistic concurrency
 * gets from it.
 */
module Versions {
  import opened Wrappers
  import opened Devices
  import opened Registry
  import opened Operations
  import opened Scenes
  import opened Traces
  import opened Structure
  import opened Boot

  /** The air-conditioner arguments that are written to the device and then refused by the adapter. */
  predicate RefusedWrite(action: string, p: Payload) {
    match action
    case "setMode" => var v := Field(p, "mode"); v.StrV? && v.s !in VALID_MODES
    case "setTemperature" => var v := Field(p, "temperatureCelsius"); v.IntV? && !(16 <= v.i <= 30)
    case "setFanSpeed" => var v := Field(p, "fanSpeed"); v.StrV? && v.s !in VALID_FAN_SPEEDS
    case _ => false
  }

  /** The refused value differs from the one that is stored. */
  predicate WritesNews(b: Body, action: string, p: Payload)
    requires b.AirConditioner?
  {
    match action
    case "setMode" => Field(p, "mode") != StrV(b.mode)
    case "setTemperature" => Field(p, "temperatureCelsius") != IntV(b.target)
    case "setFanSpeed" => Field(p, "fanSpeed") != StrV(b.fanSpeed)
    case _ => false
  }

  /** Decidable before the call: the act changes the public view and leaves the version alone. */
  predicate SilentWrite(d: Device, act: Act) {
    act.CommandAct? && d.body.AirConditioner? && Obstacle(d, act.expected).None?
    && RefusedWrite(act.action, act.payload) && WritesNews(d.body, act.action, act.payload)
  }

  predicate SameView(d: Device, e: Device) {
    PublicView(d, map[]) == PublicView(e, map[])
  }

  /** A body's effect without success is invisible, except for a refused write. */
  lemma FailedEffectInvisible(b: Body, action: string, p: Payload, now: int)
    requires BodyOk(b)
    ensures var e := BodyEffect(b, action, p, now);
      e.error.Some? ==>
        (Shown(e.body) != Shown(b) <==>
           b.AirConditioner? && RefusedWrite(action, p) && WritesNews(b, action, p))
    ensures var e := BodyEffect(b, action, p, now);
      e.error.None? ==> !(b.AirConditioner? && RefusedWrite(action, p))
  {
  }

  lemma QuietTickInvisible(b: Body, online: bool, now: int, around: Surroundings, w: Weather)
    requires BodyOk(b)
    ensures var e := BodyTick(b, online, now, around, w);
      !e.changed ==> Shown(e.body) == Shown(b)
  {
  }

  /** Exactly one kind of act changes what clients see without changing the version. */
  lemma ActFaithful(d: Device, act: Act)
    requires BodyOk(d.body)
    ensures var e := Do(d, act);
      && d.stateVersion <= e.stateVersion
      && (e.stateVersion == d.stateVersion ==> (SameView(d, e) <==> !SilentWrite(d, act)))
      && (SilentWrite(d, act) ==> e.stateVersion == d.stateVersion)
  {
    match act
    case CommandAct(action, payload, expected, now) =>
      FailedEffectInvisible(d.body, action, payload, now);
    case TickAct(now, around, weather) =>
      QuietTickInvisible(d.body, d.online, now, around, weather);
    case FaultAct(_, _) =>
    case InjectAct(_, _) =>
  }

  predicate Plausible(act: Act) {
    act.CommandAct? ==> !RefusedWrite(act.action, act.payload)
  }

  /** None of the acts, each on the device as it finds it, is a silent write. */
  predicate NoneSilent(d: Device, acts: seq<Act>) {
    forall k :: 0 <= k < |acts| ==> !SilentWrite(DoAll(d, acts[..k]), acts[k])
  }

  /** Versions never fall, whatever is done to a device. */
  lemma {:induction false} ActsMonotone(d: Device, acts: seq<Act>)
    requires BodyOk(d.body)
    ensures d.stateVersion <= DoAll(d, acts).stateVersion
    decreases |acts|
  {
    hide Do;
    if acts != [] {
      ActsMonotone(d, acts[..|acts| - 1]);
      DoAllOk(d, acts[..|acts| - 1]);
      ActFaithful(DoAll(d, acts[..|acts| - 1]), acts[|acts| - 1]);
    }
  }

  lemma {:induction false} ActsFaithful(d: Device, acts: seq<Act>)
    requires BodyOk(d.body) && NoneSilent(d, acts)
    ensures DoAll(d, acts).stateVersion == d.stateVersion ==> SameView(d, DoAll(d, acts))
    decreases |acts|
  {
    hide Do, SilentWrite;
    if acts != [] {
      var front, last := acts[..|acts| - 1], acts[|acts| - 1];
      assert forall k :: 0 <= k < |front| ==> front[..k] == acts[..k];
      ActsFaithful(d, front);
      ActsMonotone(d, front);
      DoAllOk(d, front);
      ActFaithful(DoAll(d, front), last);
    }
  }

  lemma OneActSilent(d: Device, act: Act)
    ensures NoneSilent(d, [act]) <==> !SilentWrite(d, act)
  {
    hide SilentWrite;
    assert [act][..0] == [];
    assert NoneSilent(d, [act]) ==> !SilentWrite(DoAll(d, [act][..0]), [act][0]);
  }

  // ----- operations on the registry

  predicate Scene(id: string) {
    id == "scene-away" || id == "scene-home"
  }

  /** Decidable before the operation: it is a command that writes to its device and leaves the version alone. */
  predicate SilentOp(reg: Reg, op: Op) {
    && op.Command? && !Scene(op.target) && op.target in reg.devices
    && SilentWrite(reg.devices[op.target], CommandAct(op.action, op.payload, op.expected, op.now))
  }

  predicate SilentlyWrites(reg: Reg, op: Op, id: string) {
    SilentOp(reg, op) && op.target == id
  }

  lemma {:induction false} ObeyActsPlausible(d: Device, orders: seq<Order>, now: int)
    requires forall o <- orders :: !RefusedWrite(o.action, o.payload)
    ensures forall a <- ObeyActs(d, orders, now) :: Plausible(a)
    decreases |orders|
  {
    if orders != [] {
      var a := Commanded(d, orders[0].action, orders[0].payload, Some(d.stateVersion), now);
      hide RefusedWrite;
      assert orders[0] in orders && forall o <- orders[1..] :: o in orders;
      if a.error.None? { ObeyActsPlausible(a.device, orders[1..], now); }
    }
  }

  lemma {:induction false} AwayOrdersPlausible(devices: map<string, Device>, order: seq<string>, id: string)
    ensures forall o <- OrdersFor(AwayPlans(devices, order), id) :: !RefusedWrite(o.action, o.payload)
    decreases |order|
  {
    if order != [] {
      AwayOrdersPlausible(devices, order[..|order| - 1], id);
      var last := order[|order| - 1];
      var before := AwayPlans(devices, order[..|order| - 1]);
      if last in devices && AwayOrder(devices[last].kind).Some? {
        var o := AwayOrder(devices[last].kind).value;
        assert !RefusedWrite(o.action, o.payload);
        assert (before + [Plan(last, [o])])[..|before|] == before;
      }
    }
  }

  lemma HomeOrdersPlausible(id: string)
    ensures forall o <- OrdersFor(HOME_PLANS, id) :: !RefusedWrite(o.action, o.payload)
  {
    if Planned(HOME_PLANS, id) {
      var i :| 0 <= i < |HOME_PLANS| && HOME_PLANS[i].deviceId == id;
      HomePlansDistinct();
      OrdersForPlanned(HOME_PLANS, i);
      if i == 0 { assert !RefusedWrite("setBrightness", HOME_PLANS[0].orders[0].payload); }
      if i == 1 {
        assert !RefusedWrite("setMode", HOME_PLANS[1].orders[0].payload);
        assert !RefusedWrite("setTemperature", HOME_PLANS[1].orders[1].payload);
        assert !RefusedWrite("setPower", HOME_PLANS[1].orders[2].payload);
      }
    } else {
      OrdersForUnplanned(HOME_PLANS, id);
    }
  }

  lemma PlausibleNoneSilent(d: Device, acts: seq<Act>)
    requires forall a <- acts :: Plausible(a)
    ensures NoneSilent(d, acts)
  {
    hide RefusedWrite;
    assert forall k :: 0 <= k < |acts| ==> acts[k] in acts && Plausible(acts[k]);
  }

  /** What an operation does to a device holds a silent write exactly when the operation is one. */
  lemma ActsOfSilent(reg: Reg, op: Op, id: string)
    requires Listed(reg) && id in reg.devices
    ensures NoneSilent(reg.devices[id], ActsOf(reg, op, id)) <==> !SilentlyWrites(reg, op, id)
  {
    var d := reg.devices[id];
    if op.Command? && op.target == "scene-away" {
      AwayOrdersPlausible(reg.devices, reg.order, id);
      ObeyActsPlausible(d, OrdersFor(AwayPlans(reg.devices, reg.order), id), op.now);
      PlausibleNoneSilent(d, ActsOf(reg, op, id));
    } else if op.Command? && op.target == "scene-home" {
      HomeOrdersPlausible(id);
      ObeyActsPlausible(d, OrdersFor(HOME_PLANS, id), op.now);
      PlausibleNoneSilent(d, ActsOf(reg, op, id));
    } else if op.Command? && op.target == id {
      OneActSilent(d, CommandAct(op.action, op.payload, op.expected, op.now));
    } else {
      NoCommandActs(reg, op, id);
      PlausibleNoneSilent(d, ActsOf(reg, op, id));
    }
  }

  lemma NoCommandActs(reg: Reg, op: Op, id: string)
    requires Listed(reg) && id in reg.devices
    requires op.Command? ==> !Scene(op.target) && op.target != id
    ensures forall a <- ActsOf(reg, op, id) :: Plausible(a)
  {
    hide RefusedWrite, SurroundingsInTick, FindFirst;
  }

  lemma StepMonotone(reg: Reg, op: Op, id: string)
    requires RegOk(reg) && id in reg.devices && id in Step(reg, op).devices
    ensures reg.devices[id].stateVersion <= Step(reg, op).devices[id].stateVersion
  {
    assert DeviceFits(reg, id);
    hide Step, Perform, Do, ActsOf;
    Projection(reg, op, id);
    ActsMonotone(reg.devices[id], ActsOf(reg, op, id));
  }

  /** One operation: a version that stays means a view that stays, exactly unless the operation writes silently. */
  lemma StepFaithful(reg: Reg, op: Op, id: string)
    requires RegOk(reg) && id in reg.devices && id in Step(reg, op).devices
    ensures var d, e := reg.devices[id], Step(reg, op).devices[id];
      && (SilentlyWrites(reg, op, id) ==> e.stateVersion == d.stateVersion && !SameView(d, e))
      && (!SilentlyWrites(reg, op, id) && e.stateVersion == d.stateVersion ==> SameView(d, e))
      && SameIdentity(d, e)
  {
    DeviceStaysOk(reg, op, id);
    assert DeviceFits(reg, id);
    hide Step, Perform, Do, NoneSilent, SilentWrite;
    Projection(reg, op, id);
    var d := reg.devices[id];
    if SilentlyWrites(reg, op, id) {
      var act := CommandAct(op.action, op.payload, op.expected, op.now);
      assert ActsOf(reg, op, id) == [act];
      DoOne(d, act);
      ActFaithful(d, act);
    } else {
      ActsOfSilent(reg, op, id);
      ActsFaithful(d, ActsOf(reg, op, id));
    }
  }

  /** Categories are only ever added. */
  lemma CategoriesGrow(reg: Reg, op: Op)
    requires Listed(reg)
    ensures forall c <- reg.categories ::
              c in Step(reg, op).categories && Step(reg, op).categories[c] == reg.categories[c]
  {
    match op
    case Command(target, action, payload, expected, now) =>
      ExecuteListed(reg, target, action, payload, expected, now);
    case TickAll(now, forecast) => TickListed(reg, now, forecast);
    case AddDriver(declared) =>
      if DeclarationAcceptable(reg, declared) {
        RegisterDriverListed(reg, declared);
        NewCategoriesIds(declared.categories);
      }
    case _ =>
  }

  // ----- whole runs

  /** No operation of the stretch writes silently to the device. */
  ghost predicate NoSilentWrites(reg: Reg, ops: seq<Op>, lo: nat, hi: nat, id: string)
    requires Listed(reg)
  {
    hi <= |ops| && forall n :: lo <= n < hi ==> !SilentlyWrites(At(reg, ops, n), ops[n], id)
  }

  lemma {:induction false} CategoriesGrowInRun(reg: Reg, ops: seq<Op>, lo: nat, hi: nat, c: string)
    requires Listed(reg) && lo <= hi <= |ops| && c in At(reg, ops, lo).categories
    ensures c in At(reg, ops, hi).categories
    ensures At(reg, ops, hi).categories[c] == At(reg, ops, lo).categories[c]
    decreases hi
  {
    hide Step, Perform, At;
    if lo != hi {
      CategoriesGrowInRun(reg, ops, lo, hi - 1, c);
      NextAt(reg, ops, hi - 1);
      CategoriesGrow(At(reg, ops, hi - 1), ops[hi - 1]);
    }
  }

  /** The versions of one incarnation never fall. */
  lemma {:induction false} RunMonotone(reg: Reg, ops: seq<Op>, lo: nat, hi: nat, id: string)
    requires RegOk(reg) && SoundRun(reg, ops)
    requires lo <= hi <= |ops| && Present(reg, ops, lo, hi, id)
    ensures At(reg, ops, lo).devices[id].stateVersion <= At(reg, ops, hi).devices[id].stateVersion
    decreases hi
  {
    hide Step, Perform, At, RegOk, RegCore, HomeDevices, SoundRun, DeviceFits;
    RegOkListed(reg);
    if lo != hi {
      RunMonotone(reg, ops, lo, hi - 1, id);
      RunOk(reg, ops, hi - 1);
      NextAt(reg, ops, hi - 1);
      assert id in At(reg, ops, hi).devices;
      StepMonotone(At(reg, ops, hi - 1), ops[hi - 1], id);
    }
  }

  lemma {:induction false} RunFaithful(reg: Reg, ops: seq<Op>, lo: nat, hi: nat, id: string)
    requires RegOk(reg) && SoundRun(reg, ops)
    requires lo <= hi <= |ops| && Present(reg, ops, lo, hi, id) && NoSilentWrites(reg, ops, lo, hi, id)
    ensures var d, e := At(reg, ops, lo).devices[id], At(reg, ops, hi).devices[id];
      && (e.stateVersion == d.stateVersion ==> SameView(d, e))
      && SameIdentity(d, e)
    decreases hi
  {
    hide Step, Perform, At, RegOk, RegCore, HomeDevices, SoundRun, DeviceFits, SilentlyWrites;
    RegOkListed(reg);
    if lo != hi {
      assert id in At(reg, ops, hi - 1).devices && id in At(reg, ops, hi).devices;
      RunFaithful(reg, ops, lo, hi - 1, id);
      RunMonotone(reg, ops, lo, hi - 1, id);
      RunOk(reg, ops, hi - 1);
      NextAt(reg, ops, hi - 1);
      StepMonotone(At(reg, ops, hi - 1), ops[hi - 1], id);
      StepFaithful(At(reg, ops, hi - 1), ops[hi - 1], id);
    }
  }

  /**
   * Version faithfulness: two public views of one incarnation with the same version are the same view, unless
   * something was written silently to the device in between.
   */
  lemma VersionNamesView(reg: Reg, ops: seq<Op>, lo: nat, hi: nat, id: string)
    requires RegOk(reg) && SoundRun(reg, ops)
    requires lo <= hi <= |ops| && Present(reg, ops, lo, hi, id) && NoSilentWrites(reg, ops, lo, hi, id)
    ensures var seen, current := Public(At(reg, ops, lo), id), Public(At(reg, ops, hi), id);
      && seen.stateVersion <= current.stateVersion
      && (seen.stateVersion == current.stateVersion ==> seen == current)
  {
    hide NoSilentWrites;
    RunFaithful(reg, ops, lo, hi, id);
    RunMonotone(reg, ops, lo, hi, id);
    RunOk(reg, ops, lo);
    assert DeviceFits(At(reg, ops, lo), id);
    var d := At(reg, ops, lo).devices[id];
    if d.categoryId.Some? { CategoriesGrowInRun(reg, ops, lo, hi, d.categoryId.value); }
  }

  /** Equal versions mean equal views throughout a stretch of the run. */
  ghost predicate Faithful(reg: Reg, ops: seq<Op>, lo: nat, hi: nat, id: string)
    requires Listed(reg) && lo <= hi <= |ops| && Present(reg, ops, lo, hi, id)
  {
    forall m, n :: lo <= m <= n <= hi && SameVersion(reg, ops, m, n, id) ==>
      Public(At(reg, ops, m), id) == Public(At(reg, ops, n), id)
  }

  ghost predicate SameVersion(reg: Reg, ops: seq<Op>, m: nat, n: nat, id: string)
    requires Listed(reg) && m <= n <= |ops|
    requires id in At(reg, ops, m).devices && id in At(reg, ops, n).devices
  {
    At(reg, ops, m).devices[id].stateVersion == At(reg, ops, n).devices[id].stateVersion
  }

  /** Versions name views throughout a stretch of a run exactly when nothing in it is written silently. */
  lemma VersionsNameViewsExactly(reg: Reg, ops: seq<Op>, lo: nat, hi: nat, id: string)
    requires RegOk(reg) && SoundRun(reg, ops) && Listed(reg)
    requires lo <= hi <= |ops| && Present(reg, ops, lo, hi, id)
    ensures Faithful(reg, ops, lo, hi, id) <==> NoSilentWrites(reg, ops, lo, hi, id)
  {
    hide At, RegOk, SoundRun, SilentlyWrites, Step, PublicView;
    if NoSilentWrites(reg, ops, lo, hi, id) {
      forall m, n | lo <= m <= n <= hi && SameVersion(reg, ops, m, n, id)
        ensures Public(At(reg, ops, m), id) == Public(At(reg, ops, n), id)
      {
        VersionNamesView(reg, ops, m, n, id);
        SameVersionViews(At(reg, ops, m), At(reg, ops, n), id);
      }
    }
    if Faithful(reg, ops, lo, hi, id) {
      forall n | lo <= n < hi
        ensures !SilentlyWrites(At(reg, ops, n), ops[n], id)
      {
        assert id in At(reg, ops, n).devices && id in At(reg, ops, n + 1).devices;
        if SilentlyWrites(At(reg, ops, n), ops[n], id) {
          SilentShows(reg, ops, n, id);
        }
      }
    }
  }

  lemma SameVersionViews(a: Reg, b: Reg, id: string)
    requires id in a.devices && id in b.devices && a.devices[id].stateVersion == b.devices[id].stateVersion
    ensures Public(a, id).stateVersion == Public(b, id).stateVersion
  {
  }

  lemma SilentShows(reg: Reg, ops: seq<Op>, n: nat, id: string)
    requires RegOk(reg) && SoundRun(reg, ops) && Listed(reg) && n < |ops|
    requires id in At(reg, ops, n).devices && id in At(reg, ops, n + 1).devices
    requires SilentlyWrites(At(reg, ops, n), ops[n], id)
    ensures SameVersion(reg, ops, n, n + 1, id)
    ensures Public(At(reg, ops, n), id) != Public(At(reg, ops, n + 1), id)
  {
    hide At, RegOk, SoundRun, SilentlyWrites, Step, Perform;
    RunOk(reg, ops, n);
    NextAt(reg, ops, n);
    StepFaithful(At(reg, ops, n), ops[n], id);
  }

  // ----- optimistic concurrency

  predicate Succeeds(reg: Reg, op: Op) {
    op.Command? && Execute(reg, op.target, op.action, op.payload, op.expected, op.now).result.Ok?
  }

  lemma SuccessAdvances(reg: Reg, op: Op)
    requires Listed(reg) && op.Command? && !Scene(op.target) && Succeeds(reg, op)
    ensures op.target in reg.devices && op.target in Step(reg, op).devices
    ensures Obstacle(reg.devices[op.target], op.expected).None?
    ensures Step(reg, op).devices[op.target].stateVersion == reg.devices[op.target].stateVersion + 1
  {
  }

  /** A command sent with the version of a view the sender saw runs against that very view. */
  lemma CommandRunsOnSeenView(reg: Reg, ops: seq<Op>, seen: nat, at: nat)
    requires RegOk(reg) && SoundRun(reg, ops)
    requires seen <= at < |ops| && ops[at].Command? && !Scene(ops[at].target)
    requires Present(reg, ops, seen, at, ops[at].target) && NoSilentWrites(reg, ops, seen, at, ops[at].target)
    requires ops[at].expected == Some(Public(At(reg, ops, seen), ops[at].target).stateVersion)
    requires Succeeds(At(reg, ops, at), ops[at])
    ensures Public(At(reg, ops, at), ops[at].target) == Public(At(reg, ops, seen), ops[at].target)
  {
    var id := ops[at].target;
    VersionNamesView(reg, ops, seen, at, id);
    RunOk(reg, ops, at);
    SuccessAdvances(At(reg, ops, at), ops[at]);
  }

  /** Per version of an incarnation at most one command that names it succeeds; a later one is turned
      away and changes nothing. */
  lemma OneSuccessPerVersion(reg: Reg, ops: seq<Op>, first: nat, later: nat)
    requires RegOk(reg) && SoundRun(reg, ops)
    requires first < later < |ops|
    requires ops[first].Command? && ops[later].Command? && !Scene(ops[first].target)
    requires ops[first].target == ops[later].target
    requires ops[first].expected.Some? && ops[first].expected == ops[later].expected
    requires Present(reg, ops, first, later, ops[first].target)
    requires Succeeds(At(reg, ops, first), ops[first])
    ensures !Succeeds(At(reg, ops, later), ops[later])
    ensures Step(At(reg, ops, later), ops[later]) == At(reg, ops, later)
    ensures At(reg, ops, later).devices[ops[later].target].online ==>
              Execute(At(reg, ops, later), ops[later].target, ops[later].action, ops[later].payload,
                      ops[later].expected, ops[later].now).result == Err(StateConflict)
  {
    var id := ops[first].target;
    var before := At(reg, ops, first);
    RunOk(reg, ops, first);
    SuccessAdvances(before, ops[first]);
    NextAt(reg, ops, first);
    RunMonotone(reg, ops, first + 1, later, id);
    var now := At(reg, ops, later);
    assert now.devices[id].stateVersion > ops[later].expected.value;
    TooLate(now, ops[later]);
  }

  lemma TooLate(reg: Reg, op: Op)
    requires Listed(reg) && op.Command? && !Scene(op.target) && op.target in reg.devices
    requires op.expected.Some? && op.expected.value != reg.devices[op.target].stateVersion
    ensures !Succeeds(reg, op) && Step(reg, op) == reg
    ensures reg.devices[op.target].online ==>
              Execute(reg, op.target, op.action, op.payload, op.expected, op.now).result == Err(StateConflict)
  {
    assert reg.devices[op.target := reg.devices[op.target]] == reg.devices;
  }

  /** Without the restriction the property fails: on the registry the gateway starts with, a mode no
      adapter knows is kept under the old version. */
  lemma SilentWriteExample(now: int)
    ensures var reg := Initial(now);
            var op := Command("ac-living-01", "setMode", map["mode" := StrV("turbo")], None, now);
      && Listed(reg) && "ac-living-01" in reg.devices && "ac-living-01" in Step(reg, op).devices
      && Public(Step(reg, op), "ac-living-01").stateVersion == Public(reg, "ac-living-01").stateVersion
      && Public(Step(reg, op), "ac-living-01") != Public(reg, "ac-living-01")
  {
    BootOk(now);
    InitialAirConditioner(now);
    hide Initial, RegOk, Booted, DefaultDrivers, Step, Public;
    RegOkListed(Initial(now));
    SilentDevice(Initial(now).devices["ac-living-01"], now);
    SilentCommand(Initial(now), "ac-living-01", "setMode", map["mode" := StrV("turbo")], None, now);
  }

  lemma SilentDevice(d: Device, now: int)
    requires d.body == AirConditionerBody("haierSim", 24)
    requires d.online && d.commandDelayMs == 0 && !d.failNextCommand
    ensures BodyOk(d.body)
    ensures SilentWrite(d, CommandAct("setMode", map["mode" := StrV("turbo")], None, now))
  {
    assert "turbo" !in VALID_MODES;
  }

  lemma SilentCommand(reg: Reg, id: string, action: string, p: Payload, expected: Option<int>, now: int)
    requires Listed(reg) && id in reg.devices && !Scene(id) && BodyOk(reg.devices[id].body)
    requires SilentWrite(reg.devices[id], CommandAct(action, p, expected, now))
    ensures var after := Step(reg, Command(id, action, p, expected, now));
      && id in after.devices
      && Public(after, id).stateVersion == Public(reg, id).stateVersion
      && Public(after, id) != Public(reg, id)
  {
    ActFaithful(reg.devices[id], CommandAct(action, p, expected, now));
  }
}
