/**
 * The two scenes, seen from one device at a time: a scene does to each device what its orders do to
 * that device alone.
 */
module Scenes {
  import opened Lists
  import opened Wrappers
  import opened Devices
  import opened Registry
  import opened Operations

  /** A device that gets the orders of a scene, each against its current version, up to the first
      error; done counts the orders that succeeded. */
  datatype Obeyed = Obeyed(device: Device, error: Option<Code>, done: nat)

  function Obey(d: Device, orders: seq<Order>, now: int): Obeyed
    decreases |orders|
  {
    if orders == [] then Obeyed(d, None, 0)
    else
      var a := Commanded(d, orders[0].action, orders[0].payload, Some(d.stateVersion), now);
      if a.error.Some? then Obeyed(a.device, a.error, 0)
      else var rest := Obey(a.device, orders[1..], now); rest.(done := rest.done + 1)
  }

  lemma {:induction false} RunOrdersIsObey(reg: Reg, id: string, orders: seq<Order>, now: int)
    requires id in reg.devices
    ensures var ran := RunOrders(reg, id, orders, now);
            var obeyed := Obey(reg.devices[id], orders, now);
      ran.reg.devices == reg.devices[id := obeyed.device] && ran.error == obeyed.error
    decreases |orders|
  {
    if orders == [] {
      assert reg.devices == reg.devices[id := reg.devices[id]];
    } else {
      var d := reg.devices[id];
      var step := ExecuteDevice(reg, id, orders[0].action, orders[0].payload, Some(d.stateVersion), now);
      var a := Commanded(d, orders[0].action, orders[0].payload, Some(d.stateVersion), now);
      if a.error.None? {
        RunOrdersIsObey(step.reg, id, orders[1..], now);
      }
    }
  }

  ghost predicate PlansDistinct(plans: seq<Plan>) {
    forall i, j :: 0 <= i < j < |plans| ==> plans[i].deviceId != plans[j].deviceId
  }

  ghost predicate Planned(plans: seq<Plan>, id: string) {
    exists i :: 0 <= i < |plans| && plans[i].deviceId == id
  }

  function ExpectedDetail(reg: Reg, plan: Plan, now: int): Detail {
    if plan.deviceId in reg.devices then
      var obeyed := Obey(reg.devices[plan.deviceId], plan.orders, now);
      Detail(plan.deviceId, obeyed.error.None?, obeyed.error)
    else if plan.orders == [] then Detail(plan.deviceId, true, None)
    else Detail(plan.deviceId, false, Some(InvalidCommand))
  }

  /** A device with no plan is untouched by the scene. */
  lemma {:induction false} SceneLeavesAlone(reg: Reg, plans: seq<Plan>, now: int, id: string)
    requires !Planned(plans, id)
    ensures var after := RunScene(reg, plans, now).reg;
      && (id in after.devices <==> id in reg.devices)
      && (id in reg.devices ==> after.devices[id] == reg.devices[id])
    decreases |plans|
  {
    if plans != [] {
      var front := plans[..|plans| - 1];
      assert forall i :: 0 <= i < |front| ==> front[i] == plans[i];
      SceneLeavesAlone(reg, front, now, id);
      var before := RunScene(reg, front, now).reg;
      var plan := plans[|plans| - 1];
      assert plan.deviceId != id;
      RunOrdersElsewhere(before, plan.deviceId, plan.orders, now, id);
    }
  }

  lemma {:induction false} RunOrdersElsewhere(reg: Reg, id: string, orders: seq<Order>, now: int, other: string)
    requires id != other
    ensures var after := RunOrders(reg, id, orders, now).reg;
      && (other in after.devices <==> other in reg.devices)
      && (other in reg.devices ==> after.devices[other] == reg.devices[other])
    decreases |orders|
  {
    if id in reg.devices {
      RunOrdersIsObey(reg, id, orders, now);
    }
  }

  /** Every planned device ends where its own orders take it from where the scene found it, and its
      line of the result says so. */
  lemma {:induction false} SceneByPlan(reg: Reg, plans: seq<Plan>, now: int, i: nat)
    requires PlansDistinct(plans) && i < |plans|
    ensures var run := RunScene(reg, plans, now);
            var id := plans[i].deviceId;
      && |run.details| == |plans|
      && run.details[i] == ExpectedDetail(reg, plans[i], now)
      && (id in reg.devices ==>
            id in run.reg.devices
            && run.reg.devices[id] == Obey(reg.devices[id], plans[i].orders, now).device)
    decreases |plans|
  {
    var front := plans[..|plans| - 1];
    var before := RunScene(reg, front, now);
    var last := plans[|plans| - 1];
    SceneLength(reg, front, now);
    RunSceneListed(reg, front, now);
    assert last.deviceId in before.reg.devices.Keys <==> last.deviceId in reg.devices.Keys;
    if i < |front| {
      SceneByPlan(reg, front, now, i);
      RunOrdersElsewhere(before.reg, last.deviceId, last.orders, now, plans[i].deviceId);
    } else {
      assert forall k :: 0 <= k < |front| ==> front[k] == plans[k];
      SceneLeavesAlone(reg, front, now, last.deviceId);
      if last.deviceId in reg.devices {
        RunOrdersIsObey(before.reg, last.deviceId, last.orders, now);
      }
    }
  }

  lemma {:induction false} SceneLength(reg: Reg, plans: seq<Plan>, now: int)
    ensures |RunScene(reg, plans, now).details| == |plans|
    decreases |plans|
  {
    if plans != [] { SceneLength(reg, plans[..|plans| - 1], now); }
  }

  // ----- the away scene

  /** The ids the away scene has an order for, in registry order. */
  function AwayIds(devices: map<string, Device>, order: seq<string>): seq<string> {
    if order == [] then []
    else
      var id := order[|order| - 1];
      AwayIds(devices, order[..|order| - 1])
      + if id in devices && AwayOrder(devices[id].kind).Some? then [id] else []
  }

  lemma {:induction false} AwayPlansAreAwayIds(devices: map<string, Device>, order: seq<string>)
    requires Distinct(order)
    ensures var plans := AwayPlans(devices, order);
            var ids := AwayIds(devices, order);
      && |plans| == |ids| && PlansDistinct(plans)
      && (forall i :: 0 <= i < |plans| ==>
            && plans[i].deviceId == ids[i] && ids[i] in order && ids[i] in devices
            && AwayOrder(devices[ids[i]].kind).Some?
            && plans[i].orders == [AwayOrder(devices[ids[i]].kind).value])
      && (forall id <- order :: id in devices && AwayOrder(devices[id].kind).Some? ==> id in ids)
    decreases |order|
  {
    if order != [] {
      var front := order[..|order| - 1];
      AwayPlansAreAwayIds(devices, front);
      assert order == front + [order[|order| - 1]];
      assert order[|order| - 1] !in front;
    }
  }

  /** The state the away scene is after. */
  predicate IsAway(b: Body) {
    match b
    case Light(power, _, _, _, _) => !power
    case AirConditioner(_, power, _, _, _, running, _) => !power && !running
    case BathHeater(power, _) => !power
    case Humidifier(power, _) => !power
    case DoorLock(locked, _, _, _, _, autoLockAt) => locked && autoLockAt.None?
    case Curtain(position, target, movement) => target == 0 && movement == Toward(position, 0)
    case _ => true
  }

  /** Exactly when a device follows the away scene. */
  predicate Commandable(d: Device) {
    d.online && d.commandDelayMs <= 5_000 && !d.failNextCommand
  }

  predicate CanGoAway(d: Device) {
    Commandable(d) && !(d.body.DoorLock? && d.body.jammed)
  }

  predicate KindFits(kind: string, b: Body) {
    match kind
    case "light" => b.Light?
    case "environment" => b.Environment?
    case "airConditioner" => b.AirConditioner? && b.brand in BRANDS
    case "bathHeater" => b.BathHeater?
    case "humidifier" => b.Humidifier?
    case "doorLock" => b.DoorLock?
    case "curtain" => b.Curtain?
    case _ => true
  }

  lemma ObeyOne(d: Device, order: Order, now: int)
    ensures Obey(d, [order], now) ==
      (var a := Commanded(d, order.action, order.payload, Some(d.stateVersion), now);
       Obeyed(a.device, a.error, if a.error.None? then 1 else 0))
  {
    assert [order][1..] == [];
  }

  /** One device under the away scene. */
  lemma AwayOnDevice(d: Device, now: int)
    requires KindFits(d.kind, d.body) && AwayOrder(d.kind).Some?
    ensures var obeyed := Obey(d, [AwayOrder(d.kind).value], now);
      && (obeyed.error.None? <==> CanGoAway(d))
      && obeyed.error != Some(StateConflict) && obeyed.error != Some(InvalidCommand)
      && (obeyed.error.None? ==>
            IsAway(obeyed.device.body) && obeyed.device.stateVersion == d.stateVersion + 1)
      && (obeyed.error.Some? ==> obeyed.device == d.(failNextCommand := obeyed.device.failNextCommand))
      && (obeyed.error == Some(DeviceOffline) <==> !d.online)
      && (obeyed.error == Some(CommandTimeout) <==>
            d.online && d.commandDelayMs > 5_000)
  {
    ObeyOne(d, AwayOrder(d.kind).value, now);
  }

  /**
   * The away scene: one result per device of a kind it knows, in registry order, never a version
   * conflict; the successes are away and one version up, everything else is where it was.
   */
  lemma AwayScene(reg: Reg, now: int)
    requires Listed(reg)
    requires forall id <- reg.devices :: KindFits(reg.devices[id].kind, reg.devices[id].body)
    ensures var run := ExecuteAway(reg, now);
            var ids := AwayIds(reg.devices, reg.order);
      && |run.details| == |ids|
      && run.reg.order == reg.order && run.reg.devices.Keys == reg.devices.Keys
      && (forall i :: 0 <= i < |ids| ==>
            && ids[i] in reg.devices && ids[i] in run.reg.devices
            && run.details[i].deviceId == ids[i]
            && (var d, after := reg.devices[ids[i]], run.reg.devices[ids[i]];
                && (run.details[i].success <==> CanGoAway(d))
                && (run.details[i].success <==> run.details[i].errorCode.None?)
                && run.details[i].errorCode != Some(StateConflict)
                && (run.details[i].success ==>
                      IsAway(after.body) && after.stateVersion == d.stateVersion + 1)
                && (!run.details[i].success ==>
                      after == d.(failNextCommand := after.failNextCommand))))
      && (forall id <- reg.devices :: id !in ids ==>
            id in run.reg.devices && run.reg.devices[id] == reg.devices[id])
  {
    var plans := AwayPlans(reg.devices, reg.order);
    var ids := AwayIds(reg.devices, reg.order);
    AwayPlansAreAwayIds(reg.devices, reg.order);
    SceneLength(reg, plans, now);
    RunSceneListed(reg, plans, now);
    var run := ExecuteAway(reg, now);
    forall i | 0 <= i < |ids|
      ensures var id := ids[i];
        && id in reg.devices && id in run.reg.devices
        && run.details[i] == ExpectedDetail(reg, plans[i], now)
        && run.reg.devices[id] == Obey(reg.devices[id], plans[i].orders, now).device
    {
      SceneByPlan(reg, plans, now, i);
    }
    forall i | 0 <= i < |ids|
      ensures var id := ids[i];
        var d, after := reg.devices[id], run.reg.devices[id];
        && (run.details[i].success <==> CanGoAway(d))
        && run.details[i].errorCode != Some(StateConflict)
        && (run.details[i].success ==> IsAway(after.body) && after.stateVersion == d.stateVersion + 1)
        && (!run.details[i].success ==> after == d.(failNextCommand := after.failNextCommand))
    {
      AwayOnDevice(reg.devices[ids[i]], now);
    }
    forall id <- reg.devices | id !in ids
      ensures id in run.reg.devices && run.reg.devices[id] == reg.devices[id]
    {
      forall i | 0 <= i < |plans| ensures plans[i].deviceId != id { assert ids[i] in ids; }
      SceneLeavesAlone(reg, plans, now, id);
    }
  }

  // ----- the home scene

  /** Any list of orders: exactly the leading successes take effect, each worth one version; the
      order that fails, if any, is the next one. */
  lemma {:induction false} ObeyPrefix(d: Device, orders: seq<Order>, now: int)
    ensures var obeyed := Obey(d, orders, now);
      && obeyed.done <= |orders|
      && obeyed.device.stateVersion == d.stateVersion + obeyed.done
      && (obeyed.error.None? <==> obeyed.done == |orders|)
      && (var prefix := Obey(d, orders[..obeyed.done], now);
          && prefix.error.None? && prefix.done == obeyed.done
          && (obeyed.error.None? ==> obeyed.device == prefix.device)
          && (obeyed.error.Some? ==>
                var next := orders[obeyed.done];
                var a := Commanded(prefix.device, next.action, next.payload,
                                   Some(prefix.device.stateVersion), now);
                a.error == obeyed.error && a.device == obeyed.device))
    decreases |orders|
  {
    if orders != [] {
      var a := Commanded(d, orders[0].action, orders[0].payload, Some(d.stateVersion), now);
      if a.error.None? {
        var rest := orders[1..];
        ObeyPrefix(a.device, rest, now);
        var n := Obey(a.device, rest, now).done;
        assert orders[..n + 1][1..] == rest[..n];
        assert orders[..n + 1][0] == orders[0];
      } else {
        assert orders[..0] == [];
      }
    } else {
      assert orders[..0] == [];
    }
  }

  /** What each target of the home scene looks like once it has followed its orders. */
  predicate IsHome(id: string, b: Body) {
    match id
    case "light-living-01" =>
      b.Light? && b.power && b.brightness == 70 && b.lastNonZero == 70
    case "ac-living-01" =>
      b.AirConditioner? && b.acPower && b.running && b.mode == "auto" && b.target == 24
    case "door-entry-01" => b.DoorLock? && b.locked && b.autoLockAt.None?
    case _ => false
  }

  ghost predicate HomeTargets(reg: Reg) {
    && "light-living-01" in reg.devices && reg.devices["light-living-01"].kind == "light"
    && "ac-living-01" in reg.devices && reg.devices["ac-living-01"].kind == "airConditioner"
    && "door-entry-01" in reg.devices && reg.devices["door-entry-01"].kind == "doorLock"
    && (forall i :: 0 <= i < |HOME_PLANS| ==>
          var d := reg.devices[HOME_PLANS[i].deviceId]; KindFits(d.kind, d.body))
  }

  lemma ObeyStep(d: Device, orders: seq<Order>, now: int)
    requires orders != []
    ensures var a := Commanded(d, orders[0].action, orders[0].payload, Some(d.stateVersion), now);
      Obey(d, orders, now) ==
        if a.error.Some? then Obeyed(a.device, a.error, 0)
        else var rest := Obey(a.device, orders[1..], now); rest.(done := rest.done + 1)
  {
  }

  lemma HomeLight(d: Device, now: int)
    requires d.body.Light?
    ensures var obeyed := Obey(d, HOME_PLANS[0].orders, now);
      && (obeyed.error.None? <==> CanGoAway(d))
      && (obeyed.error.None? ==> IsHome("light-living-01", obeyed.device.body) && obeyed.done == 1)
      && (obeyed.error.Some? ==> obeyed.device == d.(failNextCommand := obeyed.device.failNextCommand))
  {
    ObeyOne(d, HOME_PLANS[0].orders[0], now);
    assert (70 as real).Floor == 70;
  }

  lemma HomeDoor(d: Device, now: int)
    requires d.body.DoorLock?
    ensures var obeyed := Obey(d, HOME_PLANS[2].orders, now);
      && (obeyed.error.None? <==> CanGoAway(d))
      && (obeyed.error.None? ==> IsHome("door-entry-01", obeyed.device.body) && obeyed.done == 1)
      && (obeyed.error.Some? ==> obeyed.device == d.(failNextCommand := obeyed.device.failNextCommand))
  {
    ObeyOne(d, HOME_PLANS[2].orders[0], now);
  }

  lemma HomeAirConditioner(d: Device, now: int)
    requires d.body.AirConditioner? && d.body.brand in BRANDS
    ensures var obeyed := Obey(d, HOME_PLANS[1].orders, now);
      && (obeyed.error.None? <==> CanGoAway(d))
      && (obeyed.error.None? ==> IsHome("ac-living-01", obeyed.device.body) && obeyed.done == 3)
      && (obeyed.error.Some? ==> obeyed.device == d.(failNextCommand := obeyed.device.failNextCommand))
  {
    hide Obey;
    var orders := HOME_PLANS[1].orders;
    ObeyStep(d, orders, now);
    var first := Commanded(d, orders[0].action, orders[0].payload, Some(d.stateVersion), now);
    if first.error.None? {
      var d1 := first.device;
      assert d1.body == d.body.(mode := "auto", lastFrame := d1.body.lastFrame);
      ObeyStep(d1, orders[1..], now);
      var second := Commanded(d1, orders[1].action, orders[1].payload, Some(d1.stateVersion), now);
      var d2 := second.device;
      assert d2.body == d1.body.(target := 24, lastFrame := d2.body.lastFrame);
      assert orders[1..][1..] == [orders[2]];
      ObeyOne(d2, orders[2], now);
    }
  }

  lemma HomePlansDistinct()
    ensures PlansDistinct(HOME_PLANS) && |HOME_PLANS| == 3
  {
    assert HOME_PLANS[0].deviceId[0] == 'l' && HOME_PLANS[1].deviceId[0] == 'a' && HOME_PLANS[2].deviceId[0] == 'd';
  }

  function HomeLength(id: string): int {
    if id == "ac-living-01" then 3 else 1
  }

  /** One target of the home scene: all of its orders or none of them. */
  lemma HomeOnDevice(d: Device, i: nat, now: int)
    requires i < |HOME_PLANS| && KindFits(d.kind, d.body)
    requires d.kind == ["light", "airConditioner", "doorLock"][i]
    ensures var obeyed := Obey(d, HOME_PLANS[i].orders, now);
      && (obeyed.error.None? <==> CanGoAway(d))
      && (obeyed.error.None? ==> IsHome(HOME_PLANS[i].deviceId, obeyed.device.body)
                                 && obeyed.done == HomeLength(HOME_PLANS[i].deviceId))
      && (obeyed.error.Some? ==> obeyed.device == d.(failNextCommand := obeyed.device.failNextCommand))
  {
    if i == 0 { HomeLight(d, now); }
    else if i == 1 { HomeAirConditioner(d, now); }
    else { HomeDoor(d, now); }
  }

  /**
   * The home scene: each of the three targets follows all of its orders, and rises by their number,
   * or none of them; which of the two is decided by the device alone, and no other device changes.
   */
  lemma HomeScene(reg: Reg, now: int)
    requires HomeTargets(reg)
    ensures var run := ExecuteHome(reg, now);
      && |run.details| == 3
      && run.reg.order == reg.order && run.reg.devices.Keys == reg.devices.Keys
      && (forall i :: 0 <= i < 3 ==>
            var id := HOME_PLANS[i].deviceId;
            && run.details[i].deviceId == id && id in run.reg.devices
            && (var d, after := reg.devices[id], run.reg.devices[id];
                && (run.details[i].success <==> CanGoAway(d))
                && (run.details[i].success ==>
                      IsHome(id, after.body) && after.stateVersion == d.stateVersion + HomeLength(id))
                && (!run.details[i].success ==>
                      after == d.(failNextCommand := after.failNextCommand))))
      && (forall id <- reg.devices :: !Planned(HOME_PLANS, id) ==>
            id in run.reg.devices && run.reg.devices[id] == reg.devices[id])
  {
    var run := ExecuteHome(reg, now);
    HomePlansDistinct();
    SceneLength(reg, HOME_PLANS, now);
    RunSceneListed(reg, HOME_PLANS, now);
    forall i | 0 <= i < 3
      ensures var id := HOME_PLANS[i].deviceId;
        && run.details[i].deviceId == id && id in run.reg.devices
        && (var d, after := reg.devices[id], run.reg.devices[id];
            && (run.details[i].success <==> CanGoAway(d))
            && (run.details[i].success ==>
                  IsHome(id, after.body) && after.stateVersion == d.stateVersion + HomeLength(id))
            && (!run.details[i].success ==> after == d.(failNextCommand := after.failNextCommand)))
    {
      SceneByPlan(reg, HOME_PLANS, now, i);
      var d := reg.devices[HOME_PLANS[i].deviceId];
      HomeOnDevice(d, i, now);
      ObeyPrefix(d, HOME_PLANS[i].orders, now);
    }
    forall id <- reg.devices | !Planned(HOME_PLANS, id)
      ensures id in run.reg.devices && run.reg.devices[id] == reg.devices[id]
    {
      SceneLeavesAlone(reg, HOME_PLANS, now, id);
    }
  }
}
