/**
 * The authoritative registry as a value: what each operation of DeviceRegistry returns and what it
 * makes of the devices, the rooms, the drivers and the categories.
 */
module Registry {
  import opened Lists
  import opened Wrappers
  import opened Devices

  datatype Family =
    | LightFamily | EnvironmentFamily | AirConditionerFamily | BathHeaterFamily
    | HumidifierFamily | DoorLockFamily | CurtainFamily | PlainFamily

  function FamilyOf(b: Body): Family {
    match b
    case Light(_, _, _, _, _) => LightFamily
    case Environment(_, _, _, _, _, _) => EnvironmentFamily
    case AirConditioner(_, _, _, _, _, _, _) => AirConditionerFamily
    case BathHeater(_, _) => BathHeaterFamily
    case Humidifier(_, _) => HumidifierFamily
    case DoorLock(_, _, _, _, _, _) => DoorLockFamily
    case Curtain(_, _, _) => CurtainFamily
    case Plain => PlainFamily
  }

  /** tick_priority of the driver. */
  function Priority(f: Family): int {
    match f
    case EnvironmentFamily => 10
    case AirConditionerFamily => 20
    case HumidifierFamily => 24
    case BathHeaterFamily => 25
    case LightFamily => 30
    case DoorLockFamily => 40
    case CurtainFamily => 50
    case PlainFamily => 100
  }

  datatype Driver = Driver(kind: string, family: Family, requiresCategory: bool)

  datatype Room = Room(name: string, selectable: bool)

  datatype Alert = DoorJammed(deviceId: string, at: int) | LowBattery(deviceId: string, at: int)

  /** A dictionary keeps the order of insertion: order lists the keys of devices in that order. */
  datatype Reg = Reg(
    categories: map<string, Category>,
    drivers: map<string, Driver>,
    order: seq<string>,
    devices: map<string, Device>,
    rooms: map<string, Room>,
    alerts: seq<Alert>)

  function Public(reg: Reg, id: string): PublicDevice
    requires id in reg.devices
  {
    PublicView(reg.devices[id], reg.categories)
  }

  function Snapshot(reg: Reg): seq<PublicDevice>
    requires forall id <- reg.order :: id in reg.devices
  {
    seq(|reg.order|, i requires 0 <= i < |reg.order| => Public(reg, reg.order[i]))
  }

  // ----- registering a driver

  /** A declared field is None when the driver left it out or gave it the wrong type. */
  datatype DeclaredCategory = DeclaredCategory(
    id: Option<string>, title: Option<string>, icon: Option<string>, homeOnly: Option<bool>)

  datatype DeclaredDevice = DeclaredDevice(
    id: Option<string>, kind: Option<string>, namesCategory: bool, device: Device)

  datatype Declaration = Declaration(
    driver: Driver, categories: seq<DeclaredCategory>, devices: seq<DeclaredDevice>)

  predicate WellFormedCategory(c: DeclaredCategory) {
    && c.id.Some? && c.id.value != "" && c.title.Some? && c.title.value != ""
    && c.icon.Some? && c.icon.value != "" && c.homeOnly.Some?
  }

  predicate CategoriesAcceptable(reg: Reg, cs: seq<DeclaredCategory>) {
    && (forall c <- cs :: WellFormedCategory(c) && c.id.value !in reg.categories)
    && (forall i, j :: 0 <= i < j < |cs| ==> cs[i].id != cs[j].id)
  }

  /** The declared categories by id, all of them well formed. */
  function NewCategories(cs: seq<DeclaredCategory>): map<string, Category> {
    if cs == [] then map[]
    else
      var last := cs[|cs| - 1];
      var before := NewCategories(cs[..|cs| - 1]);
      if WellFormedCategory(last)
      then before[last.id.value :=
                    Category(last.id.value, last.title.value, last.icon.value, last.homeOnly.value)]
      else before
  }

  predicate DeviceAcceptable(reg: Reg, known: set<string>, driver: Driver, d: DeclaredDevice) {
    && d.id.Some? && d.id.value != ""
    && d.kind == Some(driver.kind)
    && d.id.value !in reg.devices
    && !d.namesCategory
    && (driver.requiresCategory ==> d.device.categoryId.Some? && d.device.categoryId.value in known)
  }

  predicate DevicesAcceptable(reg: Reg, known: set<string>, driver: Driver, ds: seq<DeclaredDevice>) {
    && (forall d <- ds :: DeviceAcceptable(reg, known, driver, d))
    && (forall i, j :: 0 <= i < j < |ds| ==> ds[i].id != ds[j].id)
  }

  function StoredDevice(driver: Driver, d: DeclaredDevice): Device
    requires d.id.Some?
  {
    d.device.(id := d.id.value, kind := driver.kind)
  }

  /** reg with the declared devices added one after the other. */
  function WithDevices(reg: Reg, driver: Driver, ds: seq<DeclaredDevice>): Reg {
    if ds == [] then reg
    else
      var before := WithDevices(reg, driver, ds[..|ds| - 1]);
      var d := ds[|ds| - 1];
      if d.id.None? then before
      else before.(order := before.order + [d.id.value],
                   devices := before.devices[d.id.value := StoredDevice(driver, d)])
  }

  predicate DeclarationAcceptable(reg: Reg, declared: Declaration) {
    && declared.driver.kind != "" && declared.driver.kind !in reg.drivers
    && CategoriesAcceptable(reg, declared.categories)
    && DevicesAcceptable(reg, reg.categories.Keys + NewCategories(declared.categories).Keys,
                         declared.driver, declared.devices)
  }

  function Registered(reg: Reg, declared: Declaration): Reg {
    WithDevices(reg.(categories := reg.categories + NewCategories(declared.categories),
                     drivers := reg.drivers[declared.driver.kind := declared.driver]),
                declared.driver, declared.devices)
  }

  /** register_driver: everything is checked before anything is stored. */
  function RegisterDriver(reg: Reg, declared: Declaration): Option<Reg> {
    if DeclarationAcceptable(reg, declared) then Some(Registered(reg, declared)) else None
  }

  // ----- rooms

  datatype Changed<+T> = Changed(reg: Reg, result: Result<T, Code>)

  function CreateRoom(reg: Reg, roomId: string, name: string): Changed<Room> {
    if roomId in reg.rooms || (exists r <- reg.rooms.Values :: r.name == name)
    then Changed(reg, Err(InvalidCommand))
    else
      var room := Room(name, true);
      Changed(reg.(rooms := reg.rooms[roomId := room]), Ok(room))
  }

  // ----- provisioned devices

  datatype Registration = Registration(
    deviceId: string, name: string, roomId: string, kind: string, categoryId: string,
    capabilities: seq<string>)

  function BaseDevice(id: string, name: string, roomId: string, kind: string, categoryId: Option<string>,
                      now: int, body: Body): Device {
    Device(id, name, roomId, kind, categoryId, false, None, true, 1, now, 0, false, body)
  }

  function LightBody(brightness: int): Body {
    Light(false, brightness, brightness, Automation(false, 100, 60, None), None)
  }

  function EnvironmentBody(temperature: real, humidity: real, lux: real, presence: bool): Body {
    Environment(temperature, humidity, lux, presence, true, 0)
  }

  function AirConditionerBody(brand: string, target: int): Body {
    AirConditioner(brand, false, "auto", target, "auto", false, None)
  }

  const LIGHT_CAPABILITIES: set<string> := {"setPower", "setBrightness", "setAutomationConfig"}
  const ENVIRONMENT_CAPABILITIES: set<string> :=
    {"reportTemperature", "reportHumidity", "reportIlluminance", "reportPresence"}
  const AIR_CONDITIONER_CAPABILITIES: set<string> :=
    {"setPower", "setMode", "setTemperature", "setFanSpeed", "setDehumidify", "setBrand"}
  const HUMIDIFIER_CAPABILITIES: set<string> := {"setPower", "setTargetHumidity"}

  /** attest_registration: the body of the device a driver is willing to bring online, if any. */
  function Attested(f: Family, categoryId: string, capabilities: set<string>): Option<Body> {
    match f
    case LightFamily =>
      if categoryId == "lighting" && capabilities == LIGHT_CAPABILITIES then Some(LightBody(60)) else None
    case EnvironmentFamily =>
      if categoryId == "environment" && capabilities == ENVIRONMENT_CAPABILITIES
      then Some(EnvironmentBody(24.0, 62.0, 95.0, false)) else None
    case AirConditionerFamily =>
      if categoryId == "environment" && capabilities == AIR_CONDITIONER_CAPABILITIES
      then Some(AirConditionerBody("generic", 24)) else None
    case HumidifierFamily =>
      if categoryId == "environment" && capabilities == HUMIDIFIER_CAPABILITIES
      then Some(Humidifier(false, 55)) else None
    case _ => None
  }

  function Elements(s: seq<string>): set<string> {
    set x | x in s
  }

  function NewDevice(r: Registration, body: Body, now: int): Device {
    BaseDevice(r.deviceId, r.name, r.roomId, r.kind, Some(r.categoryId), now, body)
      .(removable := true, capabilities := Some(multiset(r.capabilities)))
  }

  predicate SameRegistration(d: Device, r: Registration) {
    && d.removable && d.name == r.name && d.roomId == r.roomId && d.kind == r.kind
    && d.categoryId == Some(r.categoryId) && d.capabilities == Some(multiset(r.capabilities))
  }

  function RegisterProvisioned(reg: Reg, r: Registration, now: int): Changed<PublicDevice> {
    if r.roomId !in reg.rooms || !reg.rooms[r.roomId].selectable || r.kind !in reg.drivers then
      Changed(reg, Err(InvalidCommand))
    else
      var body := Attested(reg.drivers[r.kind].family, r.categoryId, Elements(r.capabilities));
      if body.None? then Changed(reg, Err(InvalidCommand))
      else if r.deviceId in reg.devices then
        if SameRegistration(reg.devices[r.deviceId], r)
        then Changed(reg, Ok(Public(reg, r.deviceId)))
        else Changed(reg, Err(InvalidCommand))
      else
        var device := NewDevice(r, body.value, now);
        Changed(reg.(order := reg.order + [r.deviceId], devices := reg.devices[r.deviceId := device]),
                Ok(PublicView(device, reg.categories)))
  }

  function RemoveProvisioned(reg: Reg, id: string): Changed<PublicDevice> {
    if id !in reg.devices || !reg.devices[id].removable then Changed(reg, Err(InvalidCommand))
    else Changed(reg.(order := Without(reg.order, id), devices := reg.devices - {id}), Ok(Public(reg, id)))
  }

  // ----- commands

  function Alerted(alerts: seq<Alert>, jam: bool, id: string, now: int): seq<Alert> {
    if jam then alerts + [DoorJammed(id, now)] else alerts
  }

  /** _execute_device. */
  function ExecuteDevice(reg: Reg, id: string, action: string, p: Payload, expected: Option<int>, now: int)
    : Changed<PublicDevice>
  {
    if id !in reg.devices then Changed(reg, Err(InvalidCommand))
    else
      var a := Commanded(reg.devices[id], action, p, expected, now);
      Changed(reg.(devices := reg.devices[id := a.device],
                   alerts := Alerted(reg.alerts, a.jamAlert, id, now)),
              if a.error.Some? then Err(a.error.value) else Ok(PublicView(a.device, reg.categories)))
  }

  datatype Order = Order(action: string, payload: Payload)
  datatype Plan = Plan(deviceId: string, orders: seq<Order>)
  datatype Detail = Detail(deviceId: string, success: bool, errorCode: Option<Code>)

  datatype Ran = Ran(reg: Reg, error: Option<Code>)

  /** The actions of a scene on one device: the first error ends them. */
  function RunOrders(reg: Reg, id: string, orders: seq<Order>, now: int): Ran
    decreases |orders|
  {
    if orders == [] then Ran(reg, None)
    else if id !in reg.devices then Ran(reg, Some(InvalidCommand))
    else
      var step := ExecuteDevice(reg, id, orders[0].action, orders[0].payload,
                                Some(reg.devices[id].stateVersion), now);
      if step.result.Err? then Ran(step.reg, Some(step.result.error))
      else RunOrders(step.reg, id, orders[1..], now)
  }

  datatype SceneRun = SceneRun(reg: Reg, details: seq<Detail>)

  /** _execute_scene_actions. */
  function RunScene(reg: Reg, plans: seq<Plan>, now: int): SceneRun
    decreases |plans|
  {
    if plans == [] then SceneRun(reg, [])
    else
      var before := RunScene(reg, plans[..|plans| - 1], now);
      var plan := plans[|plans| - 1];
      var ran := RunOrders(before.reg, plan.deviceId, plan.orders, now);
      SceneRun(ran.reg, before.details + [Detail(plan.deviceId, ran.error.None?, ran.error)])
  }

  /** The order the away scene has for each kind of device. */
  function AwayOrder(kind: string): Option<Order> {
    match kind
    case "light" => Some(Order("setPower", map["power" := BoolV(false)]))
    case "airConditioner" => Some(Order("setPower", map["power" := BoolV(false)]))
    case "bathHeater" => Some(Order("setPower", map["power" := BoolV(false)]))
    case "humidifier" => Some(Order("setPower", map["power" := BoolV(false)]))
    case "doorLock" => Some(Order("lock", map[]))
    case "curtain" => Some(Order("close", map[]))
    case _ => None
  }

  function AwayPlans(devices: map<string, Device>, order: seq<string>): seq<Plan> {
    if order == [] then []
    else
      var before := AwayPlans(devices, order[..|order| - 1]);
      var id := order[|order| - 1];
      if id in devices && AwayOrder(devices[id].kind).Some?
      then before + [Plan(id, [AwayOrder(devices[id].kind).value])]
      else before
  }

  const HOME_PLANS: seq<Plan> := [
    Plan("light-living-01", [Order("setBrightness", map["brightness" := IntV(70)])]),
    Plan("ac-living-01", [Order("setMode", map["mode" := StrV("auto")]),
                          Order("setTemperature", map["temperatureCelsius" := IntV(24)]),
                          Order("setPower", map["power" := BoolV(true)])]),
    Plan("door-entry-01", [Order("lock", map[])])]

  function ExecuteAway(reg: Reg, now: int): SceneRun {
    RunScene(reg, AwayPlans(reg.devices, reg.order), now)
  }

  function ExecuteHome(reg: Reg, now: int): SceneRun {
    RunScene(reg, HOME_PLANS, now)
  }

  datatype Reply = OneDevice(view: PublicDevice) | SceneDetails(details: seq<Detail>)

  /** execute: the two scene ids, then devices. */
  function Execute(reg: Reg, target: string, action: string, p: Payload, expected: Option<int>, now: int)
    : Changed<Reply>
  {
    if target == "scene-away" then
      if action != "executeAway" then Changed(reg, Err(InvalidCommand))
      else var s := ExecuteAway(reg, now); Changed(s.reg, Ok(SceneDetails(s.details)))
    else if target == "scene-home" then
      if action != "executeHome" then Changed(reg, Err(InvalidCommand))
      else var s := ExecuteHome(reg, now); Changed(s.reg, Ok(SceneDetails(s.details)))
    else
      var c := ExecuteDevice(reg, target, action, p, expected, now);
      Changed(c.reg, if c.result.Ok? then Ok(OneDevice(c.result.value)) else Err(c.result.error))
  }

  // ----- ticks

  /** find_first over the devices in the order given. */
  function FindFirst(devices: map<string, Device>, order: seq<string>, kind: string, room: Option<string>)
    : (r: Option<string>)
    ensures r.Some? ==>
      && r.value in order && r.value in devices && devices[r.value].kind == kind
      && (room.Some? ==> devices[r.value].roomId == room.value)
  {
    if order == [] then None
    else if order[0] in devices && devices[order[0]].kind == kind
            && (room.None? || devices[order[0]].roomId == room.value)
    then Some(order[0])
    else FindFirst(devices, order[1..], kind, room)
  }

  function SurroundingsOf(reg: Reg, d: Device): Surroundings {
    var sensor := FindFirst(reg.devices, reg.order, "environment", Some(d.roomId));
    var cooling := FindFirst(reg.devices, reg.order, "airConditioner", Some(d.roomId));
    Surroundings(
      if sensor.Some? && reg.devices[sensor.value].body.Environment?
      then var s := reg.devices[sensor.value]; Some(Sensed(s.online, s.body.presence, s.body.lux)) else None,
      if cooling.Some? && reg.devices[cooling.value].body.AirConditioner?
      then var c := reg.devices[cooling.value];
           Some(Cooling(c.online, c.body.acPower, c.body.mode, c.body.target)) else None)
  }

  type Forecast = map<string, Weather>

  const CALM := Weather(24.0, 55.0, 120.0, 0.0, 0.0)

  function WeatherAt(forecast: Forecast, id: string): Weather {
    if id in forecast then forecast[id] else CALM
  }

  function PriorityOf(devices: map<string, Device>, id: string): int {
    if id in devices then Priority(FamilyOf(devices[id].body)) else 100
  }

  function Insert(devices: map<string, Device>, id: string, sorted: seq<string>): seq<string> {
    if sorted == [] || PriorityOf(devices, id) <= PriorityOf(devices, sorted[0]) then [id] + sorted
    else [sorted[0]] + Insert(devices, id, sorted[1..])
  }

  /** sorted(devices, key = tick_priority): a stable sort. */
  function ByPriority(devices: map<string, Device>, order: seq<string>): seq<string> {
    if order == [] then [] else Insert(devices, order[0], ByPriority(devices, order[1..]))
  }

  function TickDevice(reg: Reg, id: string, now: int, forecast: Forecast): Reg
    requires id in reg.devices
  {
    var d := reg.devices[id];
    reg.(devices := reg.devices[id := Ticked(d, now, SurroundingsOf(reg, d), WeatherAt(forecast, id))])
  }

  predicate ReportsChange(reg: Reg, id: string, now: int, forecast: Forecast)
    requires id in reg.devices
  {
    var d := reg.devices[id];
    BodyTick(d.body, d.online, now, SurroundingsOf(reg, d), WeatherAt(forecast, id)).changed
  }

  datatype TickRun = TickRun(reg: Reg, changed: seq<PublicDevice>)

  /** The loop of tick over the first devices of the sorted list. */
  function TickFirst(reg: Reg, ids: seq<string>, now: int, forecast: Forecast): (r: TickRun)
    requires forall id <- ids :: id in reg.devices
    ensures r.reg.devices.Keys == reg.devices.Keys
    decreases |ids|
  {
    if ids == [] then TickRun(reg, [])
    else
      var before := TickFirst(reg, ids[..|ids| - 1], now, forecast);
      var id := ids[|ids| - 1];
      var after := TickDevice(before.reg, id, now, forecast);
      TickRun(after, if ReportsChange(before.reg, id, now, forecast)
                     then before.changed + [Public(after, id)] else before.changed)
  }

  lemma InsertElements(devices: map<string, Device>, id: string, sorted: seq<string>)
    ensures multiset(Insert(devices, id, sorted)) == multiset{id} + multiset(sorted)
  {
    if sorted == [] || PriorityOf(devices, id) <= PriorityOf(devices, sorted[0]) {
    } else {
      InsertElements(devices, id, sorted[1..]);
      assert sorted == [sorted[0]] + sorted[1..];
    }
  }

  lemma {:induction false} ByPriorityElements(devices: map<string, Device>, order: seq<string>)
    ensures multiset(ByPriority(devices, order)) == multiset(order)
  {
    if order == [] {
    } else {
      ByPriorityElements(devices, order[1..]);
      InsertElements(devices, order[0], ByPriority(devices, order[1..]));
      assert order == [order[0]] + order[1..];
    }
  }

  lemma SameElements(a: seq<string>, b: seq<string>)
    requires multiset(a) == multiset(b)
    ensures forall x :: x in a <==> x in b
  {
    forall x ensures x in a <==> x in b {
      assert x in multiset(a) <==> x in multiset(b);
    }
  }

  function Tick(reg: Reg, now: int, forecast: Forecast): TickRun
    requires forall id <- reg.order :: id in reg.devices
  {
    ByPriorityElements(reg.devices, reg.order);
    SameElements(ByPriority(reg.devices, reg.order), reg.order);
    TickFirst(reg, ByPriority(reg.devices, reg.order), now, forecast)
  }

  // ----- injections

  const LOW_BATTERY := 20

  function InjectFault(reg: Reg, id: string, f: Faults, now: int): Changed<PublicDevice> {
    if id !in reg.devices then Changed(reg, Err(InvalidCommand))
    else
      var d := reg.devices[id];
      var after := Faulted(d, f, now);
      var low := TouchedByFaults(d, f) && after.body.DoorLock? && after.body.battery <= LOW_BATTERY;
      Changed(reg.(devices := reg.devices[id := after],
                   alerts := if low then reg.alerts + [LowBattery(id, now)] else reg.alerts),
              Ok(PublicView(after, reg.categories)))
  }

  function InjectEnvironment(reg: Reg, r: Readings, now: int): Changed<PublicDevice> {
    var first := FindFirst(reg.devices, reg.order, "environment", None);
    if first.None? || !reg.devices[first.value].body.Environment? then Changed(reg, Err(InvalidCommand))
    else
      var after := Injected(reg.devices[first.value], r, now);
      Changed(reg.(devices := reg.devices[first.value := after]), Ok(PublicView(after, reg.categories)))
  }

  function DrainAlerts(reg: Reg): Reg {
    reg.(alerts := [])
  }
}
