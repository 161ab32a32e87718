/**
 * What a run of the registry means for one device: the list of things done to that device.  Every
 * property of a single device is proved on such lists and carried to the registry by Projection.
 */
module Traces {
  import opened Lists
  import opened Wrappers
  import opened Devices
  import opened Registry
  import opened Operations
  import opened Scenes

  datatype Act =
    | CommandAct(action: string, payload: Payload, expected: Option<int>, now: int)
    | TickAct(now: int, around: Surroundings, weather: Weather)
    | FaultAct(faults: Faults, now: int)
    | InjectAct(readings: Readings, now: int)

  function Do(d: Device, act: Act): Device {
    match act
    case CommandAct(action, payload, expected, now) => Commanded(d, action, payload, expected, now).device
    case TickAct(now, around, weather) => Ticked(d, now, around, weather)
    case FaultAct(faults, now) => Faulted(d, faults, now)
    case InjectAct(readings, now) => if d.body.Environment? then Injected(d, readings, now) else d
  }

  function DoAll(d: Device, acts: seq<Act>): Device
    decreases |acts|
  {
    if acts == [] then d else Do(DoAll(d, acts[..|acts| - 1]), acts[|acts| - 1])
  }

  lemma {:induction false} DoAllJoined(d: Device, a: seq<Act>, b: seq<Act>)
    ensures DoAll(d, a + b) == DoAll(DoAll(d, a), b)
    decreases |b|
  {
    if b == [] {
      assert a + b == a;
    } else {
      assert (a + b)[..|a + b| - 1] == a + b[..|b| - 1];
      DoAllJoined(d, a, b[..|b| - 1]);
    }
  }

  lemma DoOne(d: Device, act: Act)
    ensures DoAll(d, [act]) == Do(d, act)
  {
    assert [act][..0] == [];
  }

  /** The commands a scene really sends to a device: up to and including the first that fails. */
  function ObeyActs(d: Device, orders: seq<Order>, now: int): seq<Act>
    decreases |orders|
  {
    if orders == [] then []
    else
      var a := Commanded(d, orders[0].action, orders[0].payload, Some(d.stateVersion), now);
      [CommandAct(orders[0].action, orders[0].payload, Some(d.stateVersion), now)]
      + if a.error.Some? then [] else ObeyActs(a.device, orders[1..], now)
  }

  lemma {:induction false} ObeyIsDoAll(d: Device, orders: seq<Order>, now: int)
    ensures DoAll(d, ObeyActs(d, orders, now)) == Obey(d, orders, now).device
    decreases |orders|
  {
    if orders != [] {
      var first := CommandAct(orders[0].action, orders[0].payload, Some(d.stateVersion), now);
      var a := Commanded(d, orders[0].action, orders[0].payload, Some(d.stateVersion), now);
      DoOne(d, first);
      var rest := if a.error.Some? then [] else ObeyActs(a.device, orders[1..], now);
      DoAllJoined(d, [first], rest);
      if a.error.None? { ObeyIsDoAll(a.device, orders[1..], now); }
    }
  }

  function OrdersFor(plans: seq<Plan>, id: string): seq<Order> {
    if plans == [] then []
    else if plans[|plans| - 1].deviceId == id then plans[|plans| - 1].orders
    else OrdersFor(plans[..|plans| - 1], id)
  }

  lemma {:induction false} OrdersForUnplanned(plans: seq<Plan>, id: string)
    requires !Planned(plans, id)
    ensures OrdersFor(plans, id) == []
    decreases |plans|
  {
    if plans != [] {
      assert plans[|plans| - 1].deviceId != id;
      assert forall i :: 0 <= i < |plans| - 1 ==> plans[..|plans| - 1][i] == plans[i];
      OrdersForUnplanned(plans[..|plans| - 1], id);
    }
  }

  lemma {:induction false} OrdersForPlanned(plans: seq<Plan>, i: nat)
    requires PlansDistinct(plans) && i < |plans|
    ensures OrdersFor(plans, plans[i].deviceId) == plans[i].orders
    decreases |plans|
  {
    if i < |plans| - 1 {
      assert plans[i].deviceId != plans[|plans| - 1].deviceId;
      OrdersForPlanned(plans[..|plans| - 1], i);
    }
  }

  /** Whatever the scene, a device ends where its own orders take it. */
  lemma SceneOnDevice(reg: Reg, plans: seq<Plan>, now: int, id: string)
    requires PlansDistinct(plans) && id in reg.devices
    ensures var after := RunScene(reg, plans, now).reg;
      id in after.devices && after.devices[id] == Obey(reg.devices[id], OrdersFor(plans, id), now).device
  {
    if Planned(plans, id) {
      var i :| 0 <= i < |plans| && plans[i].deviceId == id;
      SceneByPlan(reg, plans, now, i);
      OrdersForPlanned(plans, i);
    } else {
      SceneLeavesAlone(reg, plans, now, id);
      OrdersForUnplanned(plans, id);
    }
  }

  // ----- ticks

  /** The surroundings a device is ticked in: the registry as the devices before it in the tick have
      left it. */
  function SurroundingsInTick(reg: Reg, ids: seq<string>, now: int, forecast: Forecast, id: string)
    : Surroundings
    requires forall x <- ids :: x in reg.devices
    requires id in reg.devices
    decreases |ids|
  {
    if ids == [] then SurroundingsOf(reg, reg.devices[id])
    else if ids[|ids| - 1] == id then
      var before := TickFirst(reg, ids[..|ids| - 1], now, forecast).reg;
      SurroundingsOf(before, before.devices[id])
    else SurroundingsInTick(reg, ids[..|ids| - 1], now, forecast, id)
  }

  lemma {:induction false} TickElsewhere(reg: Reg, ids: seq<string>, now: int, forecast: Forecast, id: string)
    requires forall x <- ids :: x in reg.devices
    requires id in reg.devices && id !in ids
    ensures TickFirst(reg, ids, now, forecast).reg.devices[id] == reg.devices[id]
    decreases |ids|
  {
    if ids != [] {
      TickElsewhere(reg, ids[..|ids| - 1], now, forecast, id);
    }
  }

  lemma {:induction false} TickOnDevice(reg: Reg, ids: seq<string>, now: int, forecast: Forecast, id: string)
    requires forall x <- ids :: x in reg.devices
    requires Distinct(ids) && id in ids
    ensures TickFirst(reg, ids, now, forecast).reg.devices[id] ==
            Ticked(reg.devices[id], now, SurroundingsInTick(reg, ids, now, forecast, id),
                   WeatherAt(forecast, id))
    decreases |ids|
  {
    var front := ids[..|ids| - 1];
    if ids[|ids| - 1] == id {
      TickElsewhere(reg, front, now, forecast, id);
    } else {
      TickOnDevice(reg, front, now, forecast, id);
    }
  }

  lemma DistinctByMultiset(s: seq<string>, t: seq<string>)
    requires multiset(s) == multiset(t) && Distinct(s)
    ensures Distinct(t)
  {
    forall i, j | 0 <= i < j < |t| ensures t[i] != t[j] {
      DistinctCount(s, t[i]);
      assert multiset(t)[t[i]] <= 1;
      if t[i] == t[j] { TwiceCount(t, i, j); }
    }
  }

  lemma {:induction false} DistinctCount(s: seq<string>, x: string)
    requires Distinct(s)
    ensures multiset(s)[x] <= 1
  {
    if s != [] {
      assert s == [s[0]] + s[1..];
      DistinctCount(s[1..], x);
      assert s[0] !in s[1..];
      assert s[0] !in multiset(s[1..]);
    }
  }

  lemma TwiceCount(t: seq<string>, i: nat, j: nat)
    requires i < j < |t| && t[i] == t[j]
    ensures multiset(t)[t[i]] >= 2
  {
    assert t == t[..j] + t[j..];
    assert t[..j][i] == t[i];
    assert t[i] in multiset(t[..j]);
    assert t[j] in multiset(t[j..]) by { assert t[j..][0] == t[j]; }
  }

  function TickOrder(reg: Reg): (ids: seq<string>)
    requires Listed(reg)
    ensures Distinct(ids) && (forall x :: x in ids <==> x in reg.devices)
  {
    ByPriorityElements(reg.devices, reg.order);
    SameElements(ByPriority(reg.devices, reg.order), reg.order);
    DistinctByMultiset(reg.order, ByPriority(reg.devices, reg.order));
    ByPriority(reg.devices, reg.order)
  }

  // ----- projection

  /** What an operation on the registry does to the device with the given id. */
  function ActsOf(reg: Reg, op: Op, id: string): seq<Act>
    requires Listed(reg) && id in reg.devices
  {
    match op
    case Command(target, action, payload, expected, now) =>
      if target == "scene-away" then
        if action == "executeAway"
        then ObeyActs(reg.devices[id], OrdersFor(AwayPlans(reg.devices, reg.order), id), now) else []
      else if target == "scene-home" then
        if action == "executeHome"
        then ObeyActs(reg.devices[id], OrdersFor(HOME_PLANS, id), now) else []
      else if target == id then [CommandAct(action, payload, expected, now)] else []
    case TickAll(now, forecast) =>
      [TickAct(now, SurroundingsInTick(reg, TickOrder(reg), now, forecast, id), WeatherAt(forecast, id))]
    case Fault(target, faults, now) => if target == id then [FaultAct(faults, now)] else []
    case Inject(readings, now) =>
      if FindFirst(reg.devices, reg.order, "environment", None) == Some(id)
      then [InjectAct(readings, now)] else []
    case _ => []
  }

  lemma ProjectionOfCommand(reg: Reg, op: Op, id: string)
    requires Listed(reg) && id in reg.devices && op.Command?
    ensures id in Step(reg, op).devices
    ensures Step(reg, op).devices[id] == DoAll(reg.devices[id], ActsOf(reg, op, id))
  {
    var d := reg.devices[id];
    if op.target == "scene-away" {
      if op.action == "executeAway" {
        var plans := AwayPlans(reg.devices, reg.order);
        AwayPlansAreAwayIds(reg.devices, reg.order);
        SceneOnDevice(reg, plans, op.now, id);
        ObeyIsDoAll(d, OrdersFor(plans, id), op.now);
      }
    } else if op.target == "scene-home" {
      if op.action == "executeHome" {
        HomePlansDistinct();
        SceneOnDevice(reg, HOME_PLANS, op.now, id);
        ObeyIsDoAll(d, OrdersFor(HOME_PLANS, id), op.now);
      }
    } else if op.target == id {
      DoOne(d, CommandAct(op.action, op.payload, op.expected, op.now));
    }
  }

  /** The device after an operation is the device before it with the operation's acts done to it. */
  lemma Projection(reg: Reg, op: Op, id: string)
    requires Listed(reg) && id in reg.devices && id in Step(reg, op).devices
    ensures Step(reg, op).devices[id] == DoAll(reg.devices[id], ActsOf(reg, op, id))
  {
    hide Commanded, Ticked, Faulted, Injected, TouchedByFaults, PublicView, Public, Attested, Registered,
         DeclarationAcceptable, NewDevice, RunScene;
    var d := reg.devices[id];
    match op
    case Command(_, _, _, _, _) => ProjectionOfCommand(reg, op, id);
    case TickAll(now, forecast) =>
      TickOnDevice(reg, TickOrder(reg), now, forecast, id);
      DoOne(d, ActsOf(reg, op, id)[0]);
    case Fault(target, faults, now) => DoOne(d, FaultAct(faults, now));
    case Inject(readings, now) => DoOne(d, InjectAct(readings, now));
    case AddDriver(declared) =>
      if DeclarationAcceptable(reg, declared) { RegisteredDevice(reg, declared, id); }
    case Register(_, _) =>
    case Remove(_) =>
    case NewRoom(_, _) =>
    case Drain =>
  }

  // ----- whole runs

  /** The device is there before operation number lo, after operation number hi - 1, and
      at every moment between: one incarnation of it. */
  ghost predicate Present(reg: Reg, ops: seq<Op>, lo: nat, hi: nat, id: string)
    requires Listed(reg) && lo <= hi <= |ops|
  {
    forall n :: lo <= n <= hi ==> id in At(reg, ops, n).devices
  }

  /** Everything done to one incarnation of a device between two moments of a run. */
  ghost function Trace(reg: Reg, ops: seq<Op>, lo: nat, hi: nat, id: string): seq<Act>
    requires Listed(reg) && lo <= hi <= |ops| && Present(reg, ops, lo, hi, id)
    decreases hi
  {
    if hi == lo then []
    else Trace(reg, ops, lo, hi - 1, id) + ActsOf(At(reg, ops, hi - 1), ops[hi - 1], id)
  }

  lemma {:induction false} TraceOfRun(reg: Reg, ops: seq<Op>, lo: nat, hi: nat, id: string)
    requires Listed(reg) && lo <= hi <= |ops| && Present(reg, ops, lo, hi, id)
    ensures At(reg, ops, hi).devices[id] ==
            DoAll(At(reg, ops, lo).devices[id], Trace(reg, ops, lo, hi, id))
    decreases hi
  {
    hide ActsOf, Perform, Do, Registry.Execute;
    if lo != hi {
      TraceOfRun(reg, ops, lo, hi - 1, id);
      NextAt(reg, ops, hi - 1);
      assert id in At(reg, ops, hi).devices;
      Projection(At(reg, ops, hi - 1), ops[hi - 1], id);
      DoAllJoined(At(reg, ops, lo).devices[id], Trace(reg, ops, lo, hi - 1, id),
                  ActsOf(At(reg, ops, hi - 1), ops[hi - 1], id));
    }
  }
}
