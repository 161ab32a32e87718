/**
 * Everything that can happen to the registry, one operation at a time, and runs of operations.
 * Listed: the insertion order names exactly the stored devices, each once.
 */
module Operations {
  import opened Lists
  import opened Wrappers
  import opened Devices
  import opened Registry

  datatype Op =
    | Command(target: string, action: string, payload: Payload, expected: Option<int>, now: int)
    | TickAll(now: int, forecast: Forecast)
    | Fault(id: string, faults: Faults, now: int)
    | Inject(readings: Readings, now: int)
    | Register(registration: Registration, now: int)
    | Remove(id: string)
    | NewRoom(roomId: string, name: string)
    | AddDriver(declared: Declaration)
    | Drain

  ghost predicate Listed(reg: Reg) {
    && Distinct(reg.order)
    && (forall id :: id in reg.order <==> id in reg.devices)
  }

  function DeclaredIds(ds: seq<DeclaredDevice>): seq<string>
    requires forall d <- ds :: d.id.Some?
  {
    seq(|ds|, i requires 0 <= i < |ds| => ds[i].id.value)
  }

  ghost predicate Declares(ds: seq<DeclaredDevice>, id: string) {
    exists i :: 0 <= i < |ds| && ds[i].id == Some(id)
  }

  lemma {:induction false} WithDevicesShape(reg: Reg, driver: Driver, ds: seq<DeclaredDevice>)
    requires forall d <- ds :: d.id.Some?
    ensures var after := WithDevices(reg, driver, ds);
      after == reg.(order := reg.order + DeclaredIds(ds), devices := after.devices)
    decreases |ds|
  {
    if ds != [] {
      var front := ds[..|ds| - 1];
      WithDevicesShape(reg, driver, front);
      assert DeclaredIds(ds) == DeclaredIds(front) + [ds[|ds| - 1].id.value];
    }
  }

  /** A device that no declaration names is kept as it is. */
  lemma {:induction false} WithDevicesKeeps(reg: Reg, driver: Driver, ds: seq<DeclaredDevice>, id: string)
    requires !Declares(ds, id)
    ensures var after := WithDevices(reg, driver, ds).devices;
      && (id in after <==> id in reg.devices)
      && (id in reg.devices ==> after[id] == reg.devices[id])
    decreases |ds|
  {
    if ds != [] {
      var front := ds[..|ds| - 1];
      assert forall i :: 0 <= i < |front| ==> front[i] == ds[i];
      WithDevicesKeeps(reg, driver, front, id);
      assert ds[|ds| - 1].id != Some(id);
    }
  }

  /** A declared device is stored. */
  lemma {:induction false} WithDevicesStores(reg: Reg, driver: Driver, ds: seq<DeclaredDevice>, i: nat)
    requires i < |ds| && ds[i].id.Some?
    requires forall j, k :: 0 <= j < k < |ds| ==> ds[j].id != ds[k].id
    ensures var after := WithDevices(reg, driver, ds).devices;
      ds[i].id.value in after && after[ds[i].id.value] == StoredDevice(driver, ds[i])
    decreases |ds|
  {
    var front := ds[..|ds| - 1];
    if i < |front| {
      WithDevicesStores(reg, driver, front, i);
      assert ds[i].id != ds[|ds| - 1].id;
    }
  }

  lemma JoinedDistinct(s: seq<string>, t: seq<string>)
    requires Distinct(s) && Distinct(t) && forall x <- t :: x !in s
    ensures Distinct(s + t)
  {
    forall i, j | 0 <= i < j < |s + t| ensures (s + t)[i] != (s + t)[j] {
      if j >= |s| { assert t[j - |s|] in t; }
    }
  }

  lemma DeclaredIdsDeclare(ds: seq<DeclaredDevice>, id: string)
    requires forall d <- ds :: d.id.Some?
    ensures id in DeclaredIds(ds) <==> Declares(ds, id)
  {
    if Declares(ds, id) {
      var i :| 0 <= i < |ds| && ds[i].id == Some(id);
      assert DeclaredIds(ds)[i] == id;
    }
    if id in DeclaredIds(ds) {
      var i :| 0 <= i < |ds| && DeclaredIds(ds)[i] == id;
      assert ds[i] in ds;
    }
  }

  /** Registering a driver: each device is an old one, untouched, or a declared one. */
  lemma RegisteredDevice(reg: Reg, declared: Declaration, id: string)
    requires DeclarationAcceptable(reg, declared)
    ensures var after := Registered(reg, declared).devices;
      && (id in reg.devices ==> id in after && after[id] == reg.devices[id])
      && (id in after && id !in reg.devices ==>
            exists d <- declared.devices :: d.id == Some(id) && after[id] == StoredDevice(declared.driver, d))
      && (Declares(declared.devices, id) ==> id in after && id !in reg.devices)
  {
    var ds := declared.devices;
    var middle := reg.(categories := reg.categories + NewCategories(declared.categories),
                       drivers := reg.drivers[declared.driver.kind := declared.driver]);
    if Declares(ds, id) {
      var i :| 0 <= i < |ds| && ds[i].id == Some(id);
      assert ds[i] in ds;
      WithDevicesStores(middle, declared.driver, ds, i);
    } else {
      WithDevicesKeeps(middle, declared.driver, ds, id);
    }
  }

  lemma RegisterDriverListed(reg: Reg, declared: Declaration)
    requires Listed(reg) && DeclarationAcceptable(reg, declared)
    ensures var after := Registered(reg, declared);
      && Listed(after)
      && after.drivers == reg.drivers[declared.driver.kind := declared.driver]
      && after.categories == reg.categories + NewCategories(declared.categories)
      && after.rooms == reg.rooms && after.alerts == reg.alerts
      && after.order == reg.order + DeclaredIds(declared.devices)
  {
    var ds := declared.devices;
    assert forall d <- ds ::
        DeviceAcceptable(reg, reg.categories.Keys + NewCategories(declared.categories).Keys, declared.driver, d);
    var middle := reg.(categories := reg.categories + NewCategories(declared.categories),
                       drivers := reg.drivers[declared.driver.kind := declared.driver]);
    WithDevicesShape(middle, declared.driver, ds);
    var after := Registered(reg, declared);
    forall id ensures id in after.order <==> id in after.devices {
      RegisteredDevice(reg, declared, id);
      DeclaredIdsDeclare(ds, id);
    }
    forall x <- DeclaredIds(ds) ensures x !in reg.order {
      DeclaredIdsDeclare(ds, x);
      RegisteredDevice(reg, declared, x);
    }
    JoinedDistinct(reg.order, DeclaredIds(ds));
  }

  /** A run of the orders of a scene stays on one device. */
  lemma {:induction false} RunOrdersListed(reg: Reg, id: string, orders: seq<Order>, now: int)
    ensures var after := RunOrders(reg, id, orders, now).reg;
      && after == reg.(devices := after.devices, alerts := after.alerts)
      && after.devices.Keys == reg.devices.Keys
    decreases |orders|
  {
    if orders != [] && id in reg.devices {
      var step := ExecuteDevice(reg, id, orders[0].action, orders[0].payload,
                                Some(reg.devices[id].stateVersion), now);
      if step.result.Ok? { RunOrdersListed(step.reg, id, orders[1..], now); }
    }
  }

  lemma {:induction false} RunSceneListed(reg: Reg, plans: seq<Plan>, now: int)
    ensures var after := RunScene(reg, plans, now).reg;
      && after == reg.(devices := after.devices, alerts := after.alerts)
      && after.devices.Keys == reg.devices.Keys
    decreases |plans|
  {
    if plans != [] {
      var front := plans[..|plans| - 1];
      RunSceneListed(reg, front, now);
      var plan := plans[|plans| - 1];
      RunOrdersListed(RunScene(reg, front, now).reg, plan.deviceId, plan.orders, now);
    }
  }

  lemma {:induction false} TickFirstListed(reg: Reg, ids: seq<string>, now: int, forecast: Forecast)
    requires forall id <- ids :: id in reg.devices
    ensures var after := TickFirst(reg, ids, now, forecast).reg;
      after == reg.(devices := after.devices)
    decreases |ids|
  {
    if ids != [] {
      TickFirstListed(reg, ids[..|ids| - 1], now, forecast);
    }
  }

  lemma SameKeysListed(reg: Reg, after: Reg)
    requires Listed(reg) && after.order == reg.order && after.devices.Keys == reg.devices.Keys
    ensures Listed(after)
  {
    forall id ensures id in after.order <==> id in after.devices {
      assert id in after.devices.Keys <==> id in reg.devices.Keys;
    }
  }

  /** The devices an operation makes public, in the order the gateway broadcasts them. */
  datatype Happened = Happened(reg: Reg, announced: seq<PublicDevice>)

  function SceneViews(reg: Reg, details: seq<Detail>): seq<PublicDevice> {
    if details == [] then []
    else
      var before := SceneViews(reg, details[..|details| - 1]);
      var last := details[|details| - 1];
      if last.success && last.deviceId in reg.devices
      then before + [Public(reg, last.deviceId)] else before
  }

  function One(c: Changed<PublicDevice>): Happened {
    Happened(c.reg, if c.result.Ok? then [c.result.value] else [])
  }

  function Perform(reg: Reg, op: Op): Happened
    requires Listed(reg)
  {
    match op
    case Command(target, action, payload, expected, now) =>
      var c := Execute(reg, target, action, payload, expected, now);
      Happened(c.reg,
               match c.result
               case Err(_) => []
               case Ok(OneDevice(view)) => [view]
               case Ok(SceneDetails(details)) => SceneViews(c.reg, details))
    case TickAll(now, forecast) => var t := Tick(reg, now, forecast); Happened(t.reg, t.changed)
    case Fault(id, faults, now) => One(InjectFault(reg, id, faults, now))
    case Inject(readings, now) => One(InjectEnvironment(reg, readings, now))
    case Register(registration, now) => One(RegisterProvisioned(reg, registration, now))
    case Remove(id) => Happened(RemoveProvisioned(reg, id).reg, [])
    case NewRoom(roomId, name) => Happened(CreateRoom(reg, roomId, name).reg, [])
    case AddDriver(declared) =>
      Happened(if RegisterDriver(reg, declared).Some? then RegisterDriver(reg, declared).value else reg, [])
    case Drain => Happened(DrainAlerts(reg), [])
  }

  function Step(reg: Reg, op: Op): Reg
    requires Listed(reg)
  {
    Perform(reg, op).reg
  }

  lemma ExecuteListed(reg: Reg, target: string, action: string, p: Payload, expected: Option<int>, now: int)
    ensures var after := Execute(reg, target, action, p, expected, now).reg;
      && after == reg.(devices := after.devices, alerts := after.alerts)
      && after.devices.Keys == reg.devices.Keys
  {
    hide RunScene, AwayPlans, Commanded, PublicView;
    RunSceneListed(reg, AwayPlans(reg.devices, reg.order), now);
    RunSceneListed(reg, HOME_PLANS, now);
  }

  lemma TickListed(reg: Reg, now: int, forecast: Forecast)
    requires Listed(reg)
    ensures var after := Tick(reg, now, forecast).reg;
      after == reg.(devices := after.devices) && after.devices.Keys == reg.devices.Keys
  {
    ByPriorityElements(reg.devices, reg.order);
    SameElements(ByPriority(reg.devices, reg.order), reg.order);
    TickFirstListed(reg, ByPriority(reg.devices, reg.order), now, forecast);
  }

  lemma RemoveListed(reg: Reg, id: string)
    requires Listed(reg)
    ensures Listed(RemoveProvisioned(reg, id).reg)
  {
    WithoutDistinct(reg.order, id);
  }

  lemma StepListed(reg: Reg, op: Op)
    requires Listed(reg)
    ensures Listed(Step(reg, op))
  {
    hide Execute, Tick, Faulted, Injected, PublicView, DeclarationAcceptable, Registered, Without, Attested, NewDevice;
    match op
    case Command(target, action, payload, expected, now) =>
      ExecuteListed(reg, target, action, payload, expected, now);
      SameKeysListed(reg, Step(reg, op));
    case TickAll(now, forecast) =>
      TickListed(reg, now, forecast);
      SameKeysListed(reg, Step(reg, op));
    case Remove(id) =>
      RemoveListed(reg, id);
    case AddDriver(declared) =>
      if DeclarationAcceptable(reg, declared) { RegisterDriverListed(reg, declared); }
    case Fault(id, faults, now) =>
      SameKeysListed(reg, InjectFault(reg, id, faults, now).reg);
    case Inject(readings, now) =>
      SameKeysListed(reg, InjectEnvironment(reg, readings, now).reg);
    case Register(_, _) =>
    case NewRoom(_, _) =>
    case Drain =>
  }

  /** The registry after a run of operations. */
  function After(reg: Reg, ops: seq<Op>): (r: Reg)
    requires Listed(reg)
    ensures Listed(r)
    decreases |ops|
  {
    if ops == [] then reg
    else
      var before := After(reg, ops[..|ops| - 1]);
      StepListed(before, ops[|ops| - 1]);
      Step(before, ops[|ops| - 1])
  }

  /** The registry before each operation of a run and after the last one. */
  function At(reg: Reg, ops: seq<Op>, n: nat): (r: Reg)
    requires Listed(reg) && n <= |ops|
    ensures Listed(r)
  {
    After(reg, ops[..n])
  }

  lemma NextAt(reg: Reg, ops: seq<Op>, n: nat)
    requires Listed(reg) && n < |ops|
    ensures At(reg, ops, n + 1) == Step(At(reg, ops, n), ops[n])
  {
    assert ops[..n + 1][..n] == ops[..n];
  }
}
