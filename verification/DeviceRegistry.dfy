/** The registry of the gateway: its methods change the stored devices in place, as Registry says. */
module DeviceRegistry {
  import opened Lists
  import opened Wrappers
  import opened Devices
  import opened Registry
  import opened Operations
  import opened Drivers
  import Boot

  lemma NoCategories(reg: Reg)
    ensures CategoriesAcceptable(reg, []) && NewCategories([]) == map[]
  {
  }

  lemma {:induction false} CategoryNames(cs: seq<DeclaredCategory>)
    requires forall c <- cs :: WellFormedCategory(c)
    ensures forall id :: id in NewCategories(cs) <==> exists j :: 0 <= j < |cs| && cs[j].id == Some(id)
  {
    if cs != [] {
      var front := cs[..|cs| - 1];
      CategoryNames(front);
      assert forall j :: 0 <= j < |front| ==> front[j] == cs[j];
      assert cs[|cs| - 1] in cs;
    }
  }

  predicate NewCategory(reg: Reg, cs: seq<DeclaredCategory>, i: nat)
    requires i < |cs|
  {
    WellFormedCategory(cs[i]) && cs[i].id.value !in reg.categories && cs[i].id.value !in NewCategories(cs[..i])
  }

  /** The next declared category is accepted when it is well formed and new; otherwise the whole list is not. */
  lemma CategoryAdded(reg: Reg, cs: seq<DeclaredCategory>, i: nat)
    requires i < |cs| && CategoriesAcceptable(reg, cs[..i])
    ensures NewCategory(reg, cs, i) ==>
              && CategoriesAcceptable(reg, cs[..i + 1])
              && NewCategories(cs[..i + 1]) ==
                 NewCategories(cs[..i])[cs[i].id.value := Category(cs[i].id.value, cs[i].title.value, cs[i].icon.value,
                                                                   cs[i].homeOnly.value)]
    ensures !NewCategory(reg, cs, i) ==> !CategoriesAcceptable(reg, cs)
  {
    CategoryNames(cs[..i]);
    if NewCategory(reg, cs, i) {
      CategoryAccepted(reg, cs, i);
    } else {
      CategoryRefused(reg, cs, i);
    }
  }

  lemma CategoryAccepted(reg: Reg, cs: seq<DeclaredCategory>, i: nat)
    requires i < |cs| && CategoriesAcceptable(reg, cs[..i]) && NewCategory(reg, cs, i)
    requires forall id :: id in NewCategories(cs[..i]) <==> exists j :: 0 <= j < i && cs[..i][j].id == Some(id)
    ensures CategoriesAcceptable(reg, cs[..i + 1])
    ensures NewCategories(cs[..i + 1]) ==
              NewCategories(cs[..i])[cs[i].id.value := Category(cs[i].id.value, cs[i].title.value, cs[i].icon.value,
                                                                cs[i].homeOnly.value)]
  {
    hide NewCategories;
    OneMoreCategory(cs, i);
    assert forall j :: 0 <= j < i ==> cs[..i][j].id != cs[i].id;
    assert cs[..i + 1] == cs[..i] + [cs[i]];
  }

  lemma OneMoreCategory(cs: seq<DeclaredCategory>, i: nat)
    requires i < |cs| && WellFormedCategory(cs[i])
    ensures NewCategories(cs[..i + 1]) ==
              NewCategories(cs[..i])[cs[i].id.value := Category(cs[i].id.value, cs[i].title.value, cs[i].icon.value,
                                                                cs[i].homeOnly.value)]
  {
    assert cs[..i + 1][..i] == cs[..i];
  }

  lemma CategoryRefused(reg: Reg, cs: seq<DeclaredCategory>, i: nat)
    requires i < |cs| && CategoriesAcceptable(reg, cs[..i]) && !NewCategory(reg, cs, i)
    requires forall id :: id in NewCategories(cs[..i]) <==> exists j :: 0 <= j < i && cs[..i][j].id == Some(id)
    ensures !CategoriesAcceptable(reg, cs)
  {
    hide NewCategories;
    assert cs[i] in cs;
    if WellFormedCategory(cs[i]) && cs[i].id.value in NewCategories(cs[..i]) {
      var j :| 0 <= j < i && cs[..i][j].id == Some(cs[i].id.value);
      assert cs[j].id == cs[i].id;
    }
  }

  lemma AcceptableIds(reg: Reg, known: set<string>, driver: Driver, ds: seq<DeclaredDevice>)
    requires DevicesAcceptable(reg, known, driver, ds)
    ensures forall d <- ds :: d.id.Some? && d.id.value !in reg.devices
    ensures forall i, j :: 0 <= i < j < |ds| ==> ds[i].id != ds[j].id
  {
    assert forall d <- ds :: DeviceAcceptable(reg, known, driver, d);
  }

  class Store {
    var categories: map<string, Category>
    var drivers: map<string, Driver>
    var order: seq<string>
    var devices: map<string, DeviceRecord>
    var rooms: map<string, Room>
    var alerts: seq<Alert>

    /** Keys are ids, no record is stored twice, and order lists the keys. */
    ghost predicate Valid()
      reads this
    {
      && (forall id <- devices :: devices[id].id == id)
      && (forall i <- devices, j <- devices :: i != j ==> devices[i] != devices[j])
      && Distinct(order)
      && (forall id :: id in order <==> id in devices)
    }

    function Records(): map<string, Device>
      reads this, devices.Values
    {
      map id | id in devices :: devices[id].View()
    }

    ghost function View(): Reg
      reads this, devices.Values
    {
      Reg(categories, drivers, order, Records(), rooms, alerts)
    }

    constructor ()
      ensures Valid() && View() == Boot.EMPTY && fresh(devices.Values)
    {
      categories, drivers, order, devices, alerts := map[], map[], [], map[], [];
      rooms := Boot.DEFAULT_ROOMS;
    }

    lemma ViewListed()
      requires Valid()
      ensures Listed(View())
    {
    }

    /** Nothing but the record of one device, and the alerts, has changed. */
    twostate predicate OnlyRecord(id: string)
      requires id in devices
      reads this, devices.Values
    {
      && devices == old(devices) && order == old(order) && categories == old(categories)
      && drivers == old(drivers) && rooms == old(rooms)
      && forall k <- devices :: k != id ==> devices[k].View() == old(devices[k].View())
    }

    twostate lemma OneRecord(id: string)
      requires id in devices && old(Valid()) && OnlyRecord(id)
      ensures Valid()
      ensures View() == old(View()).(devices := old(View()).devices[id := devices[id].View()], alerts := alerts)
    {
      assert Records() == old(Records())[id := devices[id].View()];
    }

    lemma RecordOf(id: string)
      requires Valid()
      ensures id in View().devices <==> id in devices
      ensures id in devices ==>
                && devices[id].id == id && devices[id] in devices.Values && View().devices[id] == devices[id].View()
                && forall k <- devices :: k != id ==> devices[k] != devices[id]
    {
    }

    lemma KeysOf()
      ensures View().devices.Keys == devices.Keys
    {
    }

    /** Nothing but the categories and the drivers has changed. */
    twostate lemma TablesOnly()
      requires old(Valid()) && devices == old(devices) && order == old(order) && rooms == old(rooms)
      requires alerts == old(alerts) && forall k <- devices :: devices[k].View() == old(devices[k].View())
      ensures Valid() && View() == old(View()).(categories := categories, drivers := drivers)
    {
      assert Records() == old(Records());
    }

    twostate lemma RoomsOnly()
      requires old(Valid()) && devices == old(devices) && order == old(order) && categories == old(categories)
      requires drivers == old(drivers) && alerts == old(alerts)
      requires forall k <- devices :: devices[k].View() == old(devices[k].View())
      ensures Valid() && View() == old(View()).(rooms := rooms)
    {
      assert Records() == old(Records());
    }

    // ----- looking devices up

    method FindFirst(kind: string, room: Option<string>) returns (found: Option<string>)
      requires Valid()
      ensures found == Registry.FindFirst(View().devices, View().order, kind, room)
    {
      for i := 0 to |order|
        invariant Registry.FindFirst(View().devices, order, kind, room)
               == Registry.FindFirst(View().devices, order[i..], kind, room)
      {
        assert order[i..][0] == order[i] && order[i..][1..] == order[i + 1..];
        var device := devices[order[i]];
        if device.kind != kind {
          continue;
        }
        if room.None? || device.roomId == room.value {
          return Some(order[i]);
        }
      }
      return None;
    }

    method PublicDeviceOf(device: DeviceRecord) returns (view: PublicDevice)
      ensures view == PublicView(device.View(), categories)
    {
      view := PublicView(device.View(), categories);
    }

    // ----- commands

    method EnsureCommandable(device: DeviceRecord, expected: Option<int>) returns (error: Option<Code>)
      modifies device`failNextCommand
      ensures error == Obstacle(old(device.View()), expected)
      ensures device.View() == if error == Some(InternalError) then old(device.View()).(failNextCommand := false)
                               else old(device.View())
    {
      if !device.online {
        return Some(DeviceOffline);
      }
      if expected.Some? && expected.value != device.stateVersion {
        return Some(StateConflict);
      }
      if device.commandDelayMs > COMMAND_DELAY_LIMIT_MS {
        return Some(CommandTimeout);
      }
      if device.failNextCommand {
        device.failNextCommand := false;
        return Some(InternalError);
      }
      return None;
    }

    /** _execute_device on the record itself; a jammed door's alert is left to the caller to keep. */
    method CommandRecord(device: DeviceRecord, action: string, p: Payload, expected: Option<int>, now: int)
      returns (error: Option<Code>, jamAlert: bool)
      modifies device
      ensures Answer(device.View(), error, jamAlert) == Commanded(old(device.View()), action, p, expected, now)
    {
      hide BodyEffect;
      jamAlert := false;
      error := EnsureCommandable(device, expected);
      if error.Some? {
        return;
      }
      error, jamAlert := DriverExecute(device, action, p, now);
      if error.None? {
        device.Touch(now);
      }
    }

    method ExecuteDevice(id: string, action: string, p: Payload, expected: Option<int>, now: int)
      returns (result: Result<PublicDevice, Code>)
      requires Valid()
      modifies `alerts, devices.Values
      ensures Valid() && devices == old(devices)
      ensures Changed(View(), result) == Registry.ExecuteDevice(old(View()), id, action, p, expected, now)
    {
      hide Commanded, PublicView, Valid, Records;
      RecordOf(id);
      if id !in devices {
        return Err(InvalidCommand);
      }
      var device := devices[id];
      var error, jamAlert := CommandRecord(device, action, p, expected, now);
      if jamAlert {
        alerts := alerts + [DoorJammed(device.id, now)];
      }
      OneRecord(id);
      if error.Some? {
        return Err(error.value);
      }
      var view := PublicDeviceOf(device);
      return Ok(view);
    }

    /** The actions of a scene on one device, up to the first error. */
    method ExecuteOrders(id: string, orders: seq<Order>, now: int) returns (error: Option<Code>)
      requires Valid()
      modifies `alerts, devices.Values
      ensures Valid() && devices == old(devices)
      ensures Ran(View(), error) == RunOrders(old(View()), id, orders, now)
    {
      hide Registry.ExecuteDevice;
      for i := 0 to |orders|
        invariant Valid() && devices == old(devices)
        invariant RunOrders(old(View()), id, orders, now) == RunOrders(View(), id, orders[i..], now)
      {
        assert orders[i..][0] == orders[i] && orders[i..][1..] == orders[i + 1..];
        if id !in devices {
          return Some(InvalidCommand);
        }
        var result := ExecuteDevice(id, orders[i].action, orders[i].payload, Some(devices[id].stateVersion), now);
        if result.Err? {
          return Some(result.error);
        }
      }
      return None;
    }

    method ExecuteSceneActions(plans: seq<Plan>, now: int) returns (results: seq<Detail>)
      requires Valid()
      modifies `alerts, devices.Values
      ensures Valid() && devices == old(devices)
      ensures SceneRun(View(), results) == RunScene(old(View()), plans, now)
    {
      hide RunOrders;
      results := [];
      for i := 0 to |plans|
        invariant Valid() && devices == old(devices)
        invariant SceneRun(View(), results) == RunScene(old(View()), plans[..i], now)
      {
        assert plans[..i + 1][..i] == plans[..i];
        var error := ExecuteOrders(plans[i].deviceId, plans[i].orders, now);
        results := results + [Detail(plans[i].deviceId, error.None?, error)];
      }
      assert plans[..|plans|] == plans;
    }

    method ExecuteAway(now: int) returns (results: seq<Detail>)
      requires Valid()
      modifies `alerts, devices.Values
      ensures Valid() && devices == old(devices)
      ensures SceneRun(View(), results) == Registry.ExecuteAway(old(View()), now)
    {
      hide RunScene, AwayOrder;
      var plans: seq<Plan> := [];
      for i := 0 to |order|
        invariant plans == AwayPlans(View().devices, order[..i])
      {
        assert order[..i + 1][..i] == order[..i];
        var device := devices[order[i]];
        var away := AwayOrder(device.kind);
        if away.Some? {
          plans := plans + [Plan(device.id, [away.value])];
        }
      }
      assert order[..|order|] == order;
      results := ExecuteSceneActions(plans, now);
    }

    method ExecuteHome(now: int) returns (results: seq<Detail>)
      requires Valid()
      modifies `alerts, devices.Values
      ensures Valid() && devices == old(devices)
      ensures SceneRun(View(), results) == Registry.ExecuteHome(old(View()), now)
    {
      results := ExecuteSceneActions(HOME_PLANS, now);
    }

    method Execute(target: string, action: string, p: Payload, expected: Option<int>, now: int)
      returns (reply: Result<Reply, Code>)
      requires Valid()
      modifies `alerts, devices.Values
      ensures Valid() && devices == old(devices)
      ensures Changed(View(), reply) == Registry.Execute(old(View()), target, action, p, expected, now)
    {
      hide Registry.ExecuteAway, Registry.ExecuteHome, Registry.ExecuteDevice;
      if target == "scene-away" {
        if action != "executeAway" {
          return Err(InvalidCommand);
        }
        var details := ExecuteAway(now);
        return Ok(SceneDetails(details));
      }
      if target == "scene-home" {
        if action != "executeHome" {
          return Err(InvalidCommand);
        }
        var details := ExecuteHome(now);
        return Ok(SceneDetails(details));
      }
      var result := ExecuteDevice(target, action, p, expected, now);
      if result.Err? {
        return Err(result.error);
      }
      return Ok(OneDevice(result.value));
    }

    // ----- ticks

    /** What the drivers look up of a device's room. */
    method LookAround(device: DeviceRecord) returns (around: Surroundings)
      requires Valid()
      ensures around == SurroundingsOf(View(), device.View())
    {
      hide Valid, Records, Registry.FindFirst;
      var sensor := FindFirst("environment", Some(device.roomId));
      var cooling := FindFirst("airConditioner", Some(device.roomId));
      around := Surroundings(None, None);
      if sensor.Some? {
        RecordOf(sensor.value);
        var s := devices[sensor.value];
        if s.body.Environment? {
          around := around.(sensor := Some(Sensed(s.online, s.body.presence, s.body.lux)));
        }
      }
      if cooling.Some? {
        RecordOf(cooling.value);
        var c := devices[cooling.value];
        if c.body.AirConditioner? {
          around := around.(cooling := Some(Cooling(c.online, c.body.acPower, c.body.mode, c.body.target)));
        }
      }
    }

    method TickDevice(id: string, now: int, forecast: Forecast) returns (changed: bool)
      requires Valid() && id in devices
      modifies devices.Values
      ensures Valid() && devices == old(devices)
      ensures View() == Registry.TickDevice(old(View()), id, now, forecast)
      ensures changed == ReportsChange(old(View()), id, now, forecast)
    {
      hide BodyTick, SurroundingsOf, Valid, Records;
      RecordOf(id);
      var device := devices[id];
      var around := LookAround(device);
      changed := DriverTick(device, now, around, WeatherAt(forecast, id));
      if changed {
        device.Touch(now);
      }
      OneRecord(id);
    }

    /** Every device once, sensors before what reads them; the views of those that report a change. */
    method Tick(now: int, forecast: Forecast) returns (changed: seq<PublicDevice>)
      requires Valid()
      modifies devices.Values
      ensures Valid() && devices == old(devices)
      ensures TickRun(View(), changed) == Registry.Tick(old(View()), now, forecast)
    {
      hide Registry.TickDevice, ReportsChange, ByPriority, Valid, Records;
      var ordered := ByPriority(Records(), order);
      ghost var start := View();
      changed := [];
      Ordered();
      for i := 0 to |ordered|
        invariant Valid() && devices == old(devices)
        invariant forall id <- ordered :: id in start.devices && id in devices
        invariant TickRun(View(), changed) == TickFirst(start, ordered[..i], now, forecast)
      {
        assert ordered[..i + 1][..i] == ordered[..i];
        assert ordered[i] in ordered;
        RecordOf(ordered[i]);
        var reports := TickDevice(ordered[i], now, forecast);
        if reports {
          RecordOf(ordered[i]);
          var view := PublicDeviceOf(devices[ordered[i]]);
          changed := changed + [view];
        }
      }
      assert ordered[..|ordered|] == ordered;
    }

    lemma Ordered()
      requires Valid()
      ensures forall id <- ByPriority(Records(), order) :: id in devices && id in View().devices
    {
      ByPriorityElements(Records(), order);
      SameElements(ByPriority(Records(), order), order);
    }

    // ----- faults and readings

    method InjectFault(id: string, f: Faults, now: int) returns (result: Result<PublicDevice, Code>)
      requires Valid()
      modifies `alerts, devices.Values
      ensures Valid() && devices == old(devices)
      ensures Changed(View(), result) == Registry.InjectFault(old(View()), id, f, now)
    {
      hide PublicView, Valid, Records, TouchedByFaults, Faulted;
      RecordOf(id);
      if id !in devices {
        return Err(InvalidCommand);
      }
      var device := devices[id];
      var changed := WriteFaults(device, f, now);
      if changed {
        if device.body.DoorLock? && device.body.battery <= LOW_BATTERY {
          alerts := alerts + [LowBattery(id, now)];
        }
      }
      OneRecord(id);
      var view := PublicDeviceOf(device);
      return Ok(view);
    }

    method WriteFaults(device: DeviceRecord, f: Faults, now: int) returns (changed: bool)
      modifies device
      ensures device.View() == Faulted(old(device.View()), f, now)
      ensures changed == TouchedByFaults(old(device.View()), f)
    {
      changed := WriteFaultFields(device, f);
      if changed {
        device.Touch(now);
      }
    }

    /** The fields the fault names and the device has. */
    method WriteFaultFields(device: DeviceRecord, f: Faults) returns (changed: bool)
      modifies device`online, device`commandDelayMs, device`failNextCommand, device`body
      ensures device.online == Or(f.online, old(device.online))
      ensures device.commandDelayMs == Or(f.commandDelayMs, old(device.commandDelayMs))
      ensures device.failNextCommand == Or(f.failNextCommand, old(device.failNextCommand))
      ensures device.body == if old(device.body).DoorLock?
                             then old(device.body).(jammed := Or(f.jammed, old(device.body).jammed),
                                                    battery := Or(f.battery, old(device.body).battery))
                             else old(device.body)
      ensures changed == TouchedByFaults(old(device.View()), f)
    {
      changed := false;
      if f.online.Some? {
        device.online := f.online.value;
        changed := true;
      }
      var lockChanged := WriteLockFaults(device, f);
      changed := changed || lockChanged;
      if f.commandDelayMs.Some? {
        device.commandDelayMs := f.commandDelayMs.value;
        changed := true;
      }
      if f.failNextCommand.Some? {
        device.failNextCommand := f.failNextCommand.value;
        changed := true;
      }
    }

    method WriteLockFaults(device: DeviceRecord, f: Faults) returns (changed: bool)
      modifies device`body
      ensures device.body == if old(device.body).DoorLock?
                             then old(device.body).(jammed := Or(f.jammed, old(device.body).jammed),
                                                    battery := Or(f.battery, old(device.body).battery))
                             else old(device.body)
      ensures changed <==> old(device.body).DoorLock? && (f.jammed.Some? || f.battery.Some?)
    {
      changed := false;
      if f.jammed.Some? && device.body.DoorLock? {
        device.body := device.body.(jammed := f.jammed.value);
        changed := true;
      }
      if f.battery.Some? && device.body.DoorLock? {
        device.body := device.body.(battery := f.battery.value);
        changed := true;
      }
    }

    method InjectEnvironment(r: Devices.Readings, now: int) returns (result: Result<PublicDevice, Code>)
      requires Valid()
      modifies devices.Values
      ensures Valid() && devices == old(devices)
      ensures Changed(View(), result) == Registry.InjectEnvironment(old(View()), r, now)
    {
      hide PublicView, Valid, Records, Registry.FindFirst;
      var found := FindFirst("environment", None);
      if found.None? {
        return Err(InvalidCommand);
      }
      RecordOf(found.value);
      var device := devices[found.value];
      if !device.body.Environment? {
        return Err(InvalidCommand);
      }
      WriteReadings(device, r, now);
      OneRecord(found.value);
      var view := PublicDeviceOf(device);
      return Ok(view);
    }

    method WriteReadings(device: DeviceRecord, r: Devices.Readings, now: int)
      requires device.body.Environment?
      modifies device
      ensures device.View() == Injected(old(device.View()), r, now)
    {
      WriteReadingFields(device, r);
      device.body := device.body.(manualInjectionUntil := now + MANUAL_INJECTION_MS);
      device.Touch(now);
    }

    method WriteReadingFields(device: DeviceRecord, r: Devices.Readings)
      requires device.body.Environment?
      modifies device`body
      ensures device.body == old(device.body).(temperature := Or(r.temperature, old(device.body).temperature),
                                               humidity := Or(r.humidity, old(device.body).humidity),
                                               lux := Or(r.lux, old(device.body).lux),
                                               presence := Or(r.presence, old(device.body).presence))
    {
      if r.temperature.Some? {
        device.body := device.body.(temperature := r.temperature.value);
      }
      if r.humidity.Some? {
        device.body := device.body.(humidity := r.humidity.value);
      }
      if r.lux.Some? {
        device.body := device.body.(lux := r.lux.value);
      }
      if r.presence.Some? {
        device.body := device.body.(presence := r.presence.value);
      }
    }

    method DrainAlerts() returns (drained: seq<Alert>)
      requires Valid()
      modifies `alerts
      ensures Valid() && drained == old(alerts) && View() == Registry.DrainAlerts(old(View()))
    {
      drained := alerts;
      alerts := [];
    }

    // ----- rooms

    method NameTaken(name: string) returns (taken: bool)
      ensures taken <==> exists r <- rooms.Values :: r.name == name
    {
      var ids := rooms.Keys;
      while ids != {}
        invariant ids <= rooms.Keys
        invariant forall id <- rooms :: id !in ids ==> rooms[id].name != name
        decreases ids
      {
        var id :| id in ids;
        if rooms[id].name == name {
          assert rooms[id] in rooms.Values;
          return true;
        }
        ids := ids - {id};
      }
      return false;
    }

    method CreateRoom(roomId: string, name: string) returns (result: Result<Room, Code>)
      requires Valid()
      modifies `rooms
      ensures Valid()
      ensures Changed(View(), result) == Registry.CreateRoom(old(View()), roomId, name)
    {
      hide Records, Valid;
      if roomId in rooms {
        return Err(InvalidCommand);
      }
      var taken := NameTaken(name);
      if taken {
        return Err(InvalidCommand);
      }
      var room := Room(name, true);
      rooms := rooms[roomId := room];
      RoomsOnly();
      return Ok(room);
    }

    // ----- provisioned devices

    method RegisterProvisioned(r: Registration, now: int) returns (result: Result<PublicDevice, Code>)
      requires Valid()
      modifies `order, `devices
      ensures Valid() && fresh(devices.Values - old(devices.Values))
      ensures Changed(View(), result) == Registry.RegisterProvisioned(old(View()), r, now)
    {
      hide Attested, NewDevice, PublicView, Elements, Valid, Records;
      RecordOf(r.deviceId);
      if r.roomId !in rooms || !rooms[r.roomId].selectable {
        return Err(InvalidCommand);
      }
      if r.kind !in drivers {
        return Err(InvalidCommand);
      }
      var attested := Attested(drivers[r.kind].family, r.categoryId, Elements(r.capabilities));
      if attested.None? {
        return Err(InvalidCommand);
      }
      if r.deviceId in devices {
        var existing := devices[r.deviceId];
        if SameRegistration(existing.View(), r) {
          var view := PublicDeviceOf(existing);
          return Ok(view);
        }
        return Err(InvalidCommand);
      }
      var device := new DeviceRecord(NewDevice(r, attested.value, now));
      NewDeviceId(r, attested.value, now);
      Insert(device);
      var view := PublicDeviceOf(device);
      return Ok(view);
    }

    lemma NewDeviceId(r: Registration, body: Body, now: int)
      ensures NewDevice(r, body, now).id == r.deviceId
    {
    }

    /** self.devices[id] = device, for a new record under a new id. */
    method Insert(device: DeviceRecord)
      requires Valid() && device.id !in devices && device !in devices.Values
      modifies `order, `devices
      ensures Valid() && devices == old(devices)[device.id := device]
      ensures View() == old(View()).(order := old(order) + [device.id],
                                     devices := old(View()).devices[device.id := device.View()])
    {
      devices := devices[device.id := device];
      order := order + [device.id];
      assert Records() == old(Records())[device.id := device.View()];
    }

    method RemoveProvisioned(id: string) returns (result: Result<PublicDevice, Code>)
      requires Valid()
      modifies `order, `devices
      ensures Valid() && devices.Values <= old(devices.Values)
      ensures Changed(View(), result) == Registry.RemoveProvisioned(old(View()), id)
    {
      hide PublicView, Without, Records, Valid;
      RecordOf(id);
      if id !in devices {
        return Err(InvalidCommand);
      }
      var device := devices[id];
      if !device.removable {
        return Err(InvalidCommand);
      }
      var view := PublicDeviceOf(device);
      Delete(id);
      return Ok(view);
    }

    /** del self.devices[id]. */
    method Delete(id: string)
      requires Valid() && id in devices
      modifies `order, `devices
      ensures Valid() && devices == old(devices) - {id} && devices.Values <= old(devices.Values)
      ensures View() == old(View()).(order := Without(old(order), id), devices := old(View()).devices - {id})
    {
      hide Without;
      WithoutDistinct(order, id);
      devices := devices - {id};
      order := Without(order, id);
      assert Records() == old(Records()) - {id};
    }

    // ----- drivers

    /** _validate_categories: None is an exception. */
    method ValidateCategories(declared: seq<DeclaredCategory>) returns (accepted: Option<map<string, Category>>)
      ensures accepted == if CategoriesAcceptable(View(), declared) then Some(NewCategories(declared)) else None
    {
      hide CategoriesAcceptable, NewCategories, Records;
      var result: map<string, Category> := map[];
      NoCategories(View());
      for i := 0 to |declared|
        invariant CategoriesAcceptable(View(), declared[..i]) && result == NewCategories(declared[..i])
      {
        var c := declared[i];
        CategoryAdded(View(), declared, i);
        if c.id.None? || c.id.value == "" || c.title.None? || c.title.value == "" || c.icon.None?
           || c.icon.value == "" || c.homeOnly.None? {
          return None;
        }
        if c.id.value in categories || c.id.value in result {
          return None;
        }
        result := result[c.id.value := Category(c.id.value, c.title.value, c.icon.value, c.homeOnly.value)];
      }
      assert declared[..|declared|] == declared;
      return Some(result);
    }

    /** The tests of register_driver on the created devices. */
    method ValidateDevices(driver: Driver, created: seq<DeclaredDevice>, known: set<string>) returns (ok: bool)
      requires Valid()
      ensures ok <==> DevicesAcceptable(View(), known, driver, created)
    {
      var newIds: set<string> := {};
      for i := 0 to |created|
        invariant DevicesAcceptable(View(), known, driver, created[..i])
        invariant forall id :: id in newIds <==> exists j :: 0 <= j < i && created[j].id == Some(id)
      {
        var d := created[i];
        assert d in created;
        if d.id.None? || d.id.value == "" {
          return false;
        }
        if d.kind != Some(driver.kind) {
          return false;
        }
        if d.id.value in devices || d.id.value in newIds {
          return false;
        }
        if d.namesCategory {
          return false;
        }
        if driver.requiresCategory {
          if d.device.categoryId.None? || d.device.categoryId.value !in known {
            return false;
          }
        }
        newIds := newIds + {d.id.value};
      }
      assert created[..|created|] == created;
      return true;
    }

    method RegisterDriver(declared: Declaration) returns (accepted: bool)
      requires Valid()
      modifies `categories, `drivers, `order, `devices
      ensures Valid() && fresh(devices.Values - old(devices.Values))
      ensures accepted <==> Registry.RegisterDriver(old(View()), declared).Some?
      ensures View() == if accepted then Registry.RegisterDriver(old(View()), declared).value else old(View())
    {
      hide CategoriesAcceptable, DevicesAcceptable, NewCategories, WithDevices, Valid, Records;
      var kind := declared.driver.kind;
      if kind == "" || kind in drivers {
        return false;
      }
      var newCategories := ValidateCategories(declared.categories);
      if newCategories.None? {
        return false;
      }
      var ok := ValidateDevices(declared.driver, declared.devices,
                                categories.Keys + newCategories.value.Keys);
      if !ok {
        return false;
      }
      assert DeclarationAcceptable(View(), declared);
      AcceptableIds(View(), categories.Keys + newCategories.value.Keys, declared.driver, declared.devices);
      KeysOf();
      categories := categories + newCategories.value;
      drivers := drivers[kind := declared.driver];
      TablesOnly();
      StoreAll(declared.driver, declared.devices);
      return true;
    }

    method StoreAll(driver: Driver, created: seq<DeclaredDevice>)
      requires Valid()
      requires forall d <- created :: d.id.Some? && d.id.value !in devices
      requires forall i, j :: 0 <= i < j < |created| ==> created[i].id != created[j].id
      modifies `order, `devices
      ensures Valid() && fresh(devices.Values - old(devices.Values))
      ensures View() == WithDevices(old(View()), driver, created)
    {
      hide Records, Valid;
      for i := 0 to |created|
        invariant Valid() && fresh(devices.Values - old(devices.Values))
        invariant View() == WithDevices(old(View()), driver, created[..i])
        invariant forall j :: i <= j < |created| ==> created[j].id.value !in devices
      {
        assert created[..i + 1][..i] == created[..i];
        assert created[i] in created;
        var device := new DeviceRecord(StoredDevice(driver, created[i]));
        Insert(device);
        assert forall j :: i < j < |created| ==> created[j] in created && created[j].id != created[i].id;
      }
      assert created[..|created|] == created;
    }
  }

  /** The registry with its drivers registered in turn; None is the exception of a refused one. */
  method NewRegistry(drivers: seq<Declaration>) returns (registry: Option<Store>)
    ensures registry.Some? ==> fresh(registry.value) && registry.value.Valid()
    ensures (if registry.Some? then Some(registry.value.View()) else None) == Boot.Booted(Boot.EMPTY, drivers)
  {
    hide RegisterDriver, Boot.EMPTY;
    var store := new Store();
    for i := 0 to |drivers|
      invariant store.Valid() && fresh(store) && fresh(store.devices.Values)
      invariant Boot.Booted(Boot.EMPTY, drivers) == Boot.Booted(store.View(), drivers[i..])
    {
      assert drivers[i..][0] == drivers[i] && drivers[i..][1..] == drivers[i + 1..];
      var accepted := store.RegisterDriver(drivers[i]);
      if !accepted {
        return None;
      }
    }
    return Some(store);
  }
}
