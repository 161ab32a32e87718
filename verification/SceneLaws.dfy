/** What the two scenes write: which devices they list, who follows, and what each follower becomes. */
module SceneLaws {
  import opened Lists
  import opened Wrappers
  import opened Devices
  import opened Registry
  import opened Operations
  import opened Scenes
  import opened CommandLaws

  const AWAY_KINDS: set<string> := {"light", "airConditioner", "bathHeater", "humidifier", "doorLock", "curtain"}

  /** A device follows a scene exactly when none of these applies; the first that does is the reported code. */
  function Obstacles(d: Device): Option<Code> {
    if !d.online then Some(DeviceOffline)
    else if d.commandDelayMs > 5000 then Some(CommandTimeout)
    else if d.failNextCommand || (d.body.DoorLock? && d.body.jammed) then Some(InternalError)
    else None
  }

  /** An injected failure is used up by the first order that gets as far. */
  function Unmoved(d: Device): Device {
    d.(failNextCommand := d.failNextCommand && (!d.online || d.commandDelayMs > 5000))
  }

  function Moved(d: Device, versions: nat, body: Body, now: int): Device {
    d.(stateVersion := d.stateVersion + versions, updatedAt := now, body := body)
  }

  function LightAt(b: Body, brightness: int, now: int): Body
    requires b.Light?
  {
    b.(power := true, brightness := brightness, lastNonZero := brightness,
       automation := b.automation.(manualOverrideUntil := Some(now + 300_000)))
  }

  /** Everything off, doors locked, curtains on their way down. */
  function AwayBody(b: Body, now: int): Body {
    match b
    case Light(_, _, _, automation, _) =>
      b.(power := false, automation := automation.(manualOverrideUntil := Some(now + 300_000)))
    case AirConditioner(brand, _, _, _, _, _, _) =>
      b.(acPower := false, running := false,
         lastFrame := Some(Frame(brand, AcCommand("setPower", Some(false), None, None, None))))
    case BathHeater(_, mode) => BathHeater(false, mode)
    case Humidifier(_, target) => Humidifier(false, target)
    case DoorLock(_, _, _, _, _, _) => b.(locked := true, autoLockAt := None)
    case Curtain(position, _, _) =>
      Curtain(position, 0, if position > 0 then Closing else if position < 0 then Opening else Stopped)
    case _ => b
  }

  function HomeBody(b: Body, now: int): Body {
    match b
    case Light(_, _, _, _, _) => LightAt(b, 70, now)
    case AirConditioner(brand, _, _, _, _, _, _) =>
      b.(acPower := true, mode := "auto", target := 24, running := true,
         lastFrame := Some(Frame(brand, AcCommand("setPower", Some(true), None, None, None))))
    case DoorLock(_, _, _, _, _, _) => b.(locked := true, autoLockAt := None)
    case _ => b
  }

  lemma AwayKinds(kind: string)
    ensures AwayOrder(kind).Some? <==> kind in AWAY_KINDS
  {
  }

  /** The away scene's order to one device. */
  lemma AwayOne(d: Device, now: int)
    requires KindFits(d.kind, d.body) && d.kind in AWAY_KINDS
    ensures var obeyed := Obey(d, [AwayOrder(d.kind).value], now);
      && obeyed.error == Obstacles(d)
      && obeyed.device == if obeyed.error.None? then Moved(d, 1, AwayBody(d.body, now), now) else Unmoved(d)
  {
    hide Commanded, Obey;
    var order := AwayOrder(d.kind).value;
    ObeyOne(d, order, now);
    var expected := Some(d.stateVersion);
    if !Free(d, expected) {
      TakesNoCommand(d, order.action, order.payload, expected, now);
    } else {
      match d.body
      case Light(_, _, _, _, _) => LightCommand(d, order.action, order.payload, expected, now);
      case AirConditioner(_, _, _, _, _, _, _) =>
        AirConditionerSwitch(d, order.action, order.payload, expected, now);
      case BathHeater(_, _) => BathHeaterCommand(d, order.action, order.payload, expected, now);
      case Humidifier(_, _) => HumidifierCommand(d, order.action, order.payload, expected, now);
      case DoorLock(_, _, _, _, _, _) => DoorLockCommand(d, order.action, order.payload, expected, now);
      case Curtain(_, _, _) => CurtainCommand(d, order.action, order.payload, expected, now);
    }
  }

  lemma {:induction false} AwayIdsInOrder(devices: map<string, Device>, order: seq<string>, x: string, y: string)
    requires Precedes(AwayIds(devices, order), x, y)
    ensures Precedes(order, x, y)
    decreases |order|
  {
    hide AwayOrder;
    var ids := AwayIds(devices, order);
    var i, j :| 0 <= i < j < |ids| && ids[i] == x && ids[j] == y;
    var n := |order| - 1;
    var front := AwayIds(devices, order[..n]);
    if j < |front| {
      assert front[i] == x && front[j] == y;
      AwayIdsInOrder(devices, order[..n], x, y);
      var k, l :| 0 <= k < l < n && order[..n][k] == x && order[..n][l] == y;
      assert order[k] == x && order[l] == y;
    } else {
      assert front[i] == x && x in front;
      AwayIdsListed(devices, order[..n], x);
      var k :| 0 <= k < n && order[k] == x;
      assert order[n] == y;
    }
  }

  lemma {:induction false} AwayIdsListed(devices: map<string, Device>, order: seq<string>, id: string)
    ensures id in AwayIds(devices, order)
            <==> id in order && id in devices && AwayOrder(devices[id].kind).Some?
    decreases |order|
  {
    hide AwayOrder;
    if order != [] {
      var n := |order| - 1;
      AwayIdsListed(devices, order[..n], id);
      assert order == order[..n] + [order[n]];
    }
  }

  // ----- alerts

  /** The door gets as far as its jam. */
  predicate MeetsJam(d: Device) {
    d.online && d.commandDelayMs <= 5000 && !d.failNextCommand && d.body.DoorLock? && d.body.jammed
  }

  function JamAlerts(devices: map<string, Device>, ids: seq<string>, now: int): seq<Alert> {
    if ids == [] then []
    else
      var last := ids[|ids| - 1];
      JamAlerts(devices, ids[..|ids| - 1], now)
      + if last in devices && MeetsJam(devices[last]) then [DoorJammed(last, now)] else []
  }

  /** The orders end in a jam. */
  predicate Jams(d: Device, orders: seq<Order>, now: int)
    decreases |orders|
  {
    orders != [] &&
    var a := Commanded(d, orders[0].action, orders[0].payload, Some(d.stateVersion), now);
    if a.error.Some? then a.jamAlert else Jams(a.device, orders[1..], now)
  }

  lemma LightsDoNotJam(b: Body, action: string, p: Payload, now: int)
    requires b.Light?
    ensures !LightEffect(b, action, p, now).jamAlert && LightEffect(b, action, p, now).body.Light?
  {
  }

  lemma AirConditionersDoNotJam(b: Body, action: string, p: Payload)
    requires b.AirConditioner?
    ensures !AirConditionerEffect(b, action, p).jamAlert && AirConditionerEffect(b, action, p).body.AirConditioner?
  {
    hide AdapterAccepts;
  }

  lemma EffectJams(b: Body, action: string, p: Payload, now: int)
    ensures var e := BodyEffect(b, action, p, now);
      && (e.jamAlert ==> b.DoorLock? && e.error.Some?) && (e.body.DoorLock? <==> b.DoorLock?)
  {
    hide LightEffect, AirConditionerEffect;
    match b
    case Light(_, _, _, _, _) => LightsDoNotJam(b, action, p, now);
    case AirConditioner(_, _, _, _, _, _, _) => AirConditionersDoNotJam(b, action, p);
    case _ =>
  }

  lemma OnlyDoorsJam(d: Device, action: string, p: Payload, expected: Option<int>, now: int)
    ensures var a := Commanded(d, action, p, expected, now);
      && (a.jamAlert ==> d.body.DoorLock? && a.error.Some?)
      && (a.device.body.DoorLock? <==> d.body.DoorLock?)
  {
    hide BodyEffect;
    EffectJams(d.body, action, p, now);
  }

  lemma {:induction false} OthersDoNotJam(d: Device, orders: seq<Order>, now: int)
    requires !d.body.DoorLock?
    ensures !Jams(d, orders, now)
    decreases |orders|
  {
    hide Commanded;
    if orders != [] {
      OnlyDoorsJam(d, orders[0].action, orders[0].payload, Some(d.stateVersion), now);
      var a := Commanded(d, orders[0].action, orders[0].payload, Some(d.stateVersion), now);
      if a.error.None? {
        OthersDoNotJam(a.device, orders[1..], now);
      }
    }
  }

  /** A lock order to a door jams exactly when it gets as far. */
  lemma LockJams(d: Device, now: int)
    requires d.body.DoorLock?
    ensures Jams(d, [Order("lock", map[])], now) <==> MeetsJam(d)
  {
    assert [Order("lock", map[])][1..] == [];
  }

  lemma {:induction false} RunOrdersAlerts(reg: Reg, id: string, orders: seq<Order>, now: int)
    requires id in reg.devices
    ensures RunOrders(reg, id, orders, now).reg.alerts
            == reg.alerts + if Jams(reg.devices[id], orders, now) then [DoorJammed(id, now)] else []
    decreases |orders|
  {
    hide Commanded, PublicView;
    if orders != [] {
      var d := reg.devices[id];
      OnlyDoorsJam(d, orders[0].action, orders[0].payload, Some(d.stateVersion), now);
      var step := ExecuteDevice(reg, id, orders[0].action, orders[0].payload, Some(d.stateVersion), now);
      if step.result.Ok? {
        RunOrdersAlerts(step.reg, id, orders[1..], now);
      }
    }
  }

  function PlanIds(plans: seq<Plan>): (ids: seq<string>)
    ensures |ids| == |plans|
  {
    seq(|plans|, i requires 0 <= i < |plans| => plans[i].deviceId)
  }

  lemma {:induction false} SceneAlerts(reg: Reg, plans: seq<Plan>, now: int)
    requires PlansDistinct(plans)
    requires forall i :: 0 <= i < |plans| ==>
      plans[i].deviceId in reg.devices
      && (Jams(reg.devices[plans[i].deviceId], plans[i].orders, now) <==> MeetsJam(reg.devices[plans[i].deviceId]))
    ensures RunScene(reg, plans, now).reg.alerts == reg.alerts + JamAlerts(reg.devices, PlanIds(plans), now)
    decreases |plans|
  {
    hide RunOrders, Jams, MeetsJam;
    if plans != [] {
      var front, last := plans[..|plans| - 1], plans[|plans| - 1];
      assert forall i :: 0 <= i < |front| ==> front[i] == plans[i];
      SceneAlerts(reg, front, now);
      SceneLeavesAlone(reg, front, now, last.deviceId);
      RunOrdersAlerts(RunScene(reg, front, now).reg, last.deviceId, last.orders, now);
      assert PlanIds(plans)[..|plans| - 1] == PlanIds(front);
    }
  }

  /** One line per device of the six kinds, in the registry's order; what became of every device. */
  lemma AwayExactly(reg: Reg, now: int)
    requires Listed(reg)
    requires forall id <- reg.devices :: KindFits(reg.devices[id].kind, reg.devices[id].body)
    ensures var run := ExecuteAway(reg, now);
            var listed := seq(|run.details|, i requires 0 <= i < |run.details| => run.details[i].deviceId);
      && (forall id :: id in listed <==> id in reg.devices && reg.devices[id].kind in AWAY_KINDS)
      && Distinct(listed) && (forall x, y :: Precedes(listed, x, y) ==> Precedes(reg.order, x, y))
      && (forall detail <- run.details :: detail.deviceId in reg.devices
            && detail.errorCode == Obstacles(reg.devices[detail.deviceId])
            && (detail.success <==> detail.errorCode.None?))
      && (forall id <- reg.devices :: id in run.reg.devices
            && var d := reg.devices[id];
               run.reg.devices[id] == if d.kind !in AWAY_KINDS then d
                                      else if Obstacles(d).None? then Moved(d, 1, AwayBody(d.body, now), now)
                                      else Unmoved(d))
      && run.reg.alerts == reg.alerts + JamAlerts(reg.devices, listed, now)
  {
    hide RunScene, AwayPlans, AwayOrder, KindFits, Obstacles, Moved, Unmoved, AwayBody, Obey, JamAlerts, Jams, MeetsJam;
    AwayAlerts(reg, now);
    var plans, ids, run := AwayPlans(reg.devices, reg.order), AwayIds(reg.devices, reg.order), ExecuteAway(reg, now);
    AwayPlansAreAwayIds(reg.devices, reg.order);
    SceneLength(reg, plans, now);
    var listed := seq(|run.details|, i requires 0 <= i < |run.details| => run.details[i].deviceId);
    forall i | 0 <= i < |plans|
      ensures run.details[i] == ExpectedDetail(reg, plans[i], now) && run.details[i].deviceId == ids[i]
      ensures ids[i] in reg.devices && run.details[i].errorCode == Obstacles(reg.devices[ids[i]])
      ensures run.details[i].success <==> run.details[i].errorCode.None?
    {
      SceneByPlan(reg, plans, now, i);
      AwayKinds(reg.devices[ids[i]].kind);
      AwayOne(reg.devices[ids[i]], now);
    }
    assert listed == ids;
    forall id ensures id in ids <==> id in reg.devices && reg.devices[id].kind in AWAY_KINDS {
      AwayIdsListed(reg.devices, reg.order, id);
      if id in reg.devices { AwayKinds(reg.devices[id].kind); }
    }
    assert Distinct(listed) by {
      forall i, j | 0 <= i < j < |ids| ensures ids[i] != ids[j] {
        assert plans[i].deviceId != plans[j].deviceId;
      }
    }
    forall x, y | Precedes(ids, x, y) ensures Precedes(reg.order, x, y) {
      AwayIdsInOrder(reg.devices, reg.order, x, y);
    }
    forall id <- reg.devices
      ensures id in run.reg.devices
      ensures var d := reg.devices[id];
        run.reg.devices[id] == if d.kind !in AWAY_KINDS then d
                               else if Obstacles(d).None? then Moved(d, 1, AwayBody(d.body, now), now)
                               else Unmoved(d)
    {
      if id in ids {
        var i :| 0 <= i < |ids| && ids[i] == id;
        SceneByPlan(reg, plans, now, i);
        AwayOne(reg.devices[id], now);
      } else {
        forall i | 0 <= i < |plans| ensures plans[i].deviceId != id { assert ids[i] in ids; }
        SceneLeavesAlone(reg, plans, now, id);
      }
    }
  }

  lemma AwayAlerts(reg: Reg, now: int)
    requires Listed(reg)
    requires forall id <- reg.devices :: KindFits(reg.devices[id].kind, reg.devices[id].body)
    ensures ExecuteAway(reg, now).reg.alerts
            == reg.alerts + JamAlerts(reg.devices, AwayIds(reg.devices, reg.order), now)
  {
    hide RunScene, AwayPlans, AwayIds, Jams, MeetsJam;
    var plans, ids := AwayPlans(reg.devices, reg.order), AwayIds(reg.devices, reg.order);
    AwayPlansAreAwayIds(reg.devices, reg.order);
    forall i | 0 <= i < |plans|
      ensures Jams(reg.devices[ids[i]], plans[i].orders, now) <==> MeetsJam(reg.devices[ids[i]])
    {
      AwayJams(reg.devices[ids[i]], now);
    }
    assert PlanIds(plans) == ids;
    SceneAlerts(reg, plans, now);
  }

  lemma AwayJams(d: Device, now: int)
    requires KindFits(d.kind, d.body) && AwayOrder(d.kind).Some?
    ensures Jams(d, [AwayOrder(d.kind).value], now) <==> MeetsJam(d)
  {
    hide Jams;
    if d.body.DoorLock? {
      LockJams(d, now);
    } else {
      OthersDoNotJam(d, [AwayOrder(d.kind).value], now);
    }
  }

  // ----- the home scene

  lemma HomeLightOne(d: Device, now: int)
    requires d.body.Light?
    ensures var obeyed := Obey(d, HOME_PLANS[0].orders, now);
      && obeyed.error == Obstacles(d)
      && obeyed.device == if obeyed.error.None? then Moved(d, 1, HomeBody(d.body, now), now) else Unmoved(d)
  {
    hide Commanded, Obey;
    var order := HOME_PLANS[0].orders[0];
    ObeyOne(d, order, now);
    var expected := Some(d.stateVersion);
    if !Free(d, expected) {
      TakesNoCommand(d, order.action, order.payload, expected, now);
    } else {
      assert (70 as real).Floor == 70;
      LightCommand(d, order.action, order.payload, expected, now);
    }
  }

  lemma HomeDoorOne(d: Device, now: int)
    requires d.body.DoorLock?
    ensures var obeyed := Obey(d, HOME_PLANS[2].orders, now);
      && obeyed.error == Obstacles(d)
      && obeyed.device == if obeyed.error.None? then Moved(d, 1, HomeBody(d.body, now), now) else Unmoved(d)
  {
    hide Commanded, Obey;
    var order := HOME_PLANS[2].orders[0];
    ObeyOne(d, order, now);
    var expected := Some(d.stateVersion);
    if !Free(d, expected) {
      TakesNoCommand(d, order.action, order.payload, expected, now);
    } else {
      DoorLockCommand(d, order.action, order.payload, expected, now);
    }
  }

  lemma HomeAirConditionerOne(d: Device, now: int)
    requires d.body.AirConditioner? && d.body.brand in {"generic", "haierSim", "greeSim", "mideaSim"}
    ensures var obeyed := Obey(d, HOME_PLANS[1].orders, now);
      && obeyed.error == Obstacles(d)
      && obeyed.device == if obeyed.error.None? then Moved(d, 3, HomeBody(d.body, now), now) else Unmoved(d)
  {
    hide Commanded, Obey;
    var orders := HOME_PLANS[1].orders;
    ObeyStep(d, orders, now);
    if !Free(d, Some(d.stateVersion)) {
      TakesNoCommand(d, orders[0].action, orders[0].payload, Some(d.stateVersion), now);
    } else {
      AirConditionerSetting(d, orders[0].action, orders[0].payload, Some(d.stateVersion), now);
      var d1 := Commanded(d, orders[0].action, orders[0].payload, Some(d.stateVersion), now).device;
      ObeyStep(d1, orders[1..], now);
      AirConditionerSetting(d1, orders[1].action, orders[1].payload, Some(d1.stateVersion), now);
      var d2 := Commanded(d1, orders[1].action, orders[1].payload, Some(d1.stateVersion), now).device;
      assert orders[1..][1..] == [orders[2]];
      ObeyOne(d2, orders[2], now);
      AirConditionerSwitch(d2, orders[2].action, orders[2].payload, Some(d2.stateVersion), now);
    }
  }

  /** A line of the result, and what became of its device. */
  predicate HomeLine(reg: Reg, run: SceneRun, i: nat, id: string, versions: nat, now: int)
    requires id in reg.devices
  {
    var d := reg.devices[id];
    && i < |run.details| && run.details[i] == Detail(id, Obstacles(d).None?, Obstacles(d))
    && id in run.reg.devices
    && run.reg.devices[id] == if Obstacles(d).None? then Moved(d, versions, HomeBody(d.body, now), now) else Unmoved(d)
  }

  lemma HomeAlerts(reg: Reg, now: int)
    requires "light-living-01" in reg.devices && reg.devices["light-living-01"].body.Light?
    requires "ac-living-01" in reg.devices && reg.devices["ac-living-01"].body.AirConditioner?
    requires "door-entry-01" in reg.devices && reg.devices["door-entry-01"].body.DoorLock?
    ensures ExecuteHome(reg, now).reg.alerts
         == reg.alerts + if MeetsJam(reg.devices["door-entry-01"]) then [DoorJammed("door-entry-01", now)] else []
  {
    hide RunScene, Jams;
    HomePlansDistinct();
    OthersDoNotJam(reg.devices["light-living-01"], HOME_PLANS[0].orders, now);
    OthersDoNotJam(reg.devices["ac-living-01"], HOME_PLANS[1].orders, now);
    LockJams(reg.devices["door-entry-01"], now);
    SceneAlerts(reg, HOME_PLANS, now);
    var ids := PlanIds(HOME_PLANS);
    assert ids == ["light-living-01", "ac-living-01", "door-entry-01"];
    assert ids[..2][..1][..0] == [] && ids[..2][..1] == ids[..1];
    assert JamAlerts(reg.devices, ids[..1], now) == [];
    assert JamAlerts(reg.devices, ids[..2], now) == [];
  }

  /** Lines for the living room's light, its air conditioner and the front door, in this order. */
  lemma HomeExactly(reg: Reg, now: int)
    requires "light-living-01" in reg.devices && reg.devices["light-living-01"].body.Light?
    requires "ac-living-01" in reg.devices && reg.devices["ac-living-01"].body.AirConditioner?
    requires reg.devices["ac-living-01"].body.brand in {"generic", "haierSim", "greeSim", "mideaSim"}
    requires "door-entry-01" in reg.devices && reg.devices["door-entry-01"].body.DoorLock?
    ensures var run := ExecuteHome(reg, now);
      && |run.details| == 3
      && HomeLine(reg, run, 0, "light-living-01", 1, now)
      && HomeLine(reg, run, 1, "ac-living-01", 3, now)
      && HomeLine(reg, run, 2, "door-entry-01", 1, now)
      && (forall id <- reg.devices :: id !in {"light-living-01", "ac-living-01", "door-entry-01"} ==>
            id in run.reg.devices && run.reg.devices[id] == reg.devices[id])
      && run.reg.alerts
         == reg.alerts + if MeetsJam(reg.devices["door-entry-01"]) then [DoorJammed("door-entry-01", now)] else []
  {
    hide Obstacles, Moved, Unmoved, HomeBody, Obey, RunScene, MeetsJam;
    HomePlansDistinct();
    HomeAlerts(reg, now);
    SceneLength(reg, HOME_PLANS, now);
    SceneByPlan(reg, HOME_PLANS, now, 0);
    SceneByPlan(reg, HOME_PLANS, now, 1);
    SceneByPlan(reg, HOME_PLANS, now, 2);
    HomeLightOne(reg.devices["light-living-01"], now);
    HomeAirConditionerOne(reg.devices["ac-living-01"], now);
    HomeDoorOne(reg.devices["door-entry-01"], now);
    forall id <- reg.devices | id !in {"light-living-01", "ac-living-01", "door-entry-01"}
      ensures id in ExecuteHome(reg, now).reg.devices && ExecuteHome(reg, now).reg.devices[id] == reg.devices[id]
    {
      SceneLeavesAlone(reg, HOME_PLANS, now, id);
    }
  }
}
