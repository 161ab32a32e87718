/**
 * The devices of the gateway: one dictionary per device in the program, one
 * value of type Device here.  Times are milliseconds of the wall clock.
 */
module Devices {
  import opened Wrappers

  datatype Code =
    | AuthFailed
    | DeviceOffline
    | InvalidCommand
    | CommandTimeout
    | StateConflict
    | ReplayDetected
    | RateLimited
    | InternalError

  /** A JSON value in a command payload.  A number that is too large for a range check, a list or
      an object is Other: no driver accepts it. */
  datatype Value =
    | BoolV(b: bool)
    | IntV(i: int)
    | FloatV(r: real)
    | NaNV
    | StrV(s: string)
    | OtherV

  type Payload = map<string, Value>

  /** payload.get(key): a missing key gives a value that passes no type test. */
  function Field(p: Payload, key: string): Value {
    if key in p then p[key] else OtherV
  }

  datatype Automation = Automation(
    enabled: bool,
    thresholdLux: int,
    noPresenceDelaySeconds: int,
    manualOverrideUntil: Option<int>)

  /** What a brand adapter encodes; the text of the frame stays abstract. */
  datatype AcCommand = AcCommand(
    action: string,
    power: Option<bool>,
    mode: Option<string>,
    temperature: Option<int>,
    fanSpeed: Option<string>)

  datatype Frame = Frame(brand: string, command: AcCommand)

  datatype Movement = Stopped | Opening | Closing

  /** The fields a family adds to the common ones. */
  datatype Body =
    | Light(power: bool, brightness: int, lastNonZero: int, automation: Automation,
            noPresenceSince: Option<int>)
    | Environment(temperature: real, humidity: real, lux: real, presence: bool, dataValid: bool,
                  manualInjectionUntil: int)
    | AirConditioner(brand: string, acPower: bool, mode: string, target: int, fanSpeed: string,
                     running: bool, lastFrame: Option<Frame>)
    | BathHeater(bathPower: bool, bathMode: string)
    | Humidifier(humPower: bool, targetHumidity: int)
    | DoorLock(locked: bool, jammed: bool, battery: int, autoLockEnabled: bool,
               autoLockDelaySeconds: int, autoLockAt: Option<int>)
    | Curtain(position: int, targetPosition: int, movement: Movement)
    | Plain

  datatype Device = Device(
    id: string,
    name: string,
    roomId: string,
    kind: string,
    categoryId: Option<string>,
    removable: bool,
    capabilities: Option<multiset<string>>,
    online: bool,
    stateVersion: int,
    updatedAt: int,
    commandDelayMs: int,
    failNextCommand: bool,
    body: Body)

  datatype Category = Category(id: string, title: string, icon: string, homeOnly: bool)

  /** A device as clients see it: every field whose name starts with an underscore is gone. */
  datatype PublicDevice = PublicDevice(
    id: string,
    name: string,
    roomId: string,
    kind: string,
    online: bool,
    stateVersion: int,
    updatedAt: int,
    category: Option<Category>,
    removable: bool,
    body: Body)

  /** The family's fields with the private ones blanked out. */
  function Shown(b: Body): Body {
    match b
    case Light(_, _, _, _, _) => b.(noPresenceSince := None)
    case Environment(_, _, _, _, _, _) => b.(manualInjectionUntil := 0)
    case _ => b
  }

  function PublicView(d: Device, categories: map<string, Category>): PublicDevice {
    PublicDevice(d.id, d.name, d.roomId, d.kind, d.online, d.stateVersion, d.updatedAt,
                 if d.categoryId.Some? && d.categoryId.value in categories
                 then Some(categories[d.categoryId.value]) else None,
                 d.removable, Shown(d.body))
  }

  // ----- number arguments

  datatype Reading = OutOfRange | NotANumber | InRange(value: real)

  /** The range test the drivers share: a boolean is not a number, and NaN passes both comparisons
      only to make int() or round() fail afterwards. */
  function ReadNumber(v: Value, lo: real, hi: real): Reading {
    match v
    case IntV(i) => if lo <= i as real <= hi then InRange(i as real) else OutOfRange
    case FloatV(r) => if lo <= r <= hi then InRange(r) else OutOfRange
    case NaNV => NotANumber
    case _ => OutOfRange
  }

  /** Python's round(): to the nearest integer, a tie goes to the even one. */
  function RoundHalfEven(x: real): (n: int)
    ensures -0.5 <= n as real - x <= 0.5
    ensures (n as real - x == 0.5 || x - n as real == 0.5) ==> n % 2 == 0
  {
    var f := x.Floor;
    var rest := x - f as real;
    if rest < 0.5 then f
    else if rest > 0.5 then f + 1
    else if f % 2 == 0 then f else f + 1
  }

  /** round(x, 1) on the reals. */
  function RoundTenth(x: real): (r: real)
    ensures -0.05 <= r - x <= 0.05
  {
    RoundHalfEven(x * 10.0) as real / 10.0
  }

  // ----- commands

  /** What a driver's execute leaves behind: the new fields, the error it raised if any, and whether
      it recorded a jam alert. */
  datatype Effect = Effect(body: Body, error: Option<Code>, jamAlert: bool)

  function Done(b: Body): Effect {
    Effect(b, None, false)
  }

  function Refused(b: Body, code: Code): Effect {
    Effect(b, Some(code), false)
  }

  const MANUAL_OVERRIDE_MS := 300_000

  function LightEffect(b: Body, action: string, p: Payload, now: int): Effect
    requires b.Light?
  {
    match action
    case "setPower" =>
      var power := Field(p, "power");
      if !power.BoolV? then Refused(b, InvalidCommand) else
      var lit := if power.b && b.brightness == 0 then Max(1, b.lastNonZero) else b.brightness;
      Done(b.(power := power.b, brightness := lit,
              automation := b.automation.(manualOverrideUntil := Some(now + MANUAL_OVERRIDE_MS))))
    case "setBrightness" =>
      (match ReadNumber(Field(p, "brightness"), 0.0, 100.0)
       case OutOfRange => Refused(b, InvalidCommand)
       case NotANumber => Refused(b, InternalError)
       case InRange(r) =>
         var value := r.Floor;
         Done(b.(power := value > 0, brightness := value,
                 lastNonZero := if value > 0 then value else b.lastNonZero,
                 automation := b.automation.(manualOverrideUntil := Some(now + MANUAL_OVERRIDE_MS)))))
    case "setAutomationConfig" =>
      var enabled := Field(p, "enabled");
      var threshold := ReadNumber(Field(p, "illuminanceThresholdLux"), 10.0, 500.0);
      var delay := ReadNumber(Field(p, "noPresenceDelaySeconds"), 5.0, 600.0);
      if !enabled.BoolV? || threshold.OutOfRange? || delay.OutOfRange? then
        Refused(b, InvalidCommand)
      else if threshold.NotANumber? || delay.NotANumber? then
        Refused(b, InternalError)
      else
        Done(b.(automation := Automation(enabled.b, threshold.value.Floor, delay.value.Floor, None),
                noPresenceSince := None))
    case _ => Refused(b, InvalidCommand)
  }

  const VALID_MODES: set<string> := {"auto", "cool", "heat", "dry", "fan"}
  const VALID_FAN_SPEEDS: set<string> := {"auto", "low", "medium", "high"}
  const BRANDS: set<string> := {"generic", "haierSim", "greeSim", "mideaSim"}

  const EMPTY_AC_COMMAND := AcCommand("", None, None, None, None)

  /** BrandAdapter.validate. */
  predicate AdapterAccepts(c: AcCommand) {
    && (c.action == "setMode" ==> c.mode.Some? && c.mode.value in VALID_MODES)
    && (c.action == "setTemperature" ==> c.temperature.Some? && 16 <= c.temperature.value <= 30)
    && (c.action == "setFanSpeed" ==> c.fanSpeed.Some? && c.fanSpeed.value in VALID_FAN_SPEEDS)
  }

  /** The end of AirConditionerDriver.execute: the fields are already written when the adapter
      validates, so a refusal keeps them. */
  function Encoded(written: Body, c: AcCommand): Effect
    requires written.AirConditioner?
  {
    if written.brand in BRANDS && AdapterAccepts(c)
    then Done(written.(lastFrame := Some(Frame(written.brand, c))))
    else Refused(written, InvalidCommand)
  }

  function AirConditionerEffect(b: Body, action: string, p: Payload): Effect
    requires b.AirConditioner?
  {
    match action
    case "setPower" =>
      var power := Field(p, "power");
      if !power.BoolV? then Refused(b, InvalidCommand) else
      Encoded(b.(acPower := power.b, running := power.b),
              EMPTY_AC_COMMAND.(action := action, power := Some(power.b)))
    case "setMode" =>
      var mode := Field(p, "mode");
      if !mode.StrV? then Refused(b, InvalidCommand) else
      Encoded(b.(mode := mode.s), EMPTY_AC_COMMAND.(action := action, mode := Some(mode.s)))
    case "setTemperature" =>
      var temperature := Field(p, "temperatureCelsius");
      if !temperature.IntV? then Refused(b, InvalidCommand) else
      Encoded(b.(target := temperature.i),
              EMPTY_AC_COMMAND.(action := action, temperature := Some(temperature.i)))
    case "setFanSpeed" =>
      var fanSpeed := Field(p, "fanSpeed");
      if !fanSpeed.StrV? then Refused(b, InvalidCommand) else
      Encoded(b.(fanSpeed := fanSpeed.s),
              EMPTY_AC_COMMAND.(action := action, fanSpeed := Some(fanSpeed.s)))
    case "setDehumidify" =>
      var enabled := Field(p, "enabled");
      if !enabled.BoolV? then Refused(b, InvalidCommand) else
      Encoded(b.(mode := "dry", acPower := enabled.b, running := enabled.b),
              EMPTY_AC_COMMAND.(action := "setMode", mode := Some("dry")))
    case "setBrand" =>
      var brand := Field(p, "brand");
      if !brand.StrV? || brand.s !in BRANDS then Refused(b, InvalidCommand) else
      Encoded(b.(brand := brand.s),
              EMPTY_AC_COMMAND.(action := "setPower", power := Some(b.acPower)))
    case _ => Refused(b, InvalidCommand)
  }

  const BATH_MODES: set<string> := {"warm", "ventilate", "dry"}

  function BathHeaterEffect(b: Body, action: string, p: Payload): Effect
    requires b.BathHeater?
  {
    match action
    case "setPower" =>
      var power := Field(p, "power");
      if power.BoolV? then Done(b.(bathPower := power.b)) else Refused(b, InvalidCommand)
    case "setMode" =>
      var mode := Field(p, "mode");
      if mode.StrV? && mode.s in BATH_MODES then Done(b.(bathMode := mode.s))
      else Refused(b, InvalidCommand)
    case _ => Refused(b, InvalidCommand)
  }

  function HumidifierEffect(b: Body, action: string, p: Payload): Effect
    requires b.Humidifier?
  {
    match action
    case "setPower" =>
      var power := Field(p, "power");
      if power.BoolV? then Done(b.(humPower := power.b)) else Refused(b, InvalidCommand)
    case "setTargetHumidity" =>
      (match ReadNumber(Field(p, "targetHumidityPercent"), 35.0, 75.0)
       case OutOfRange => Refused(b, InvalidCommand)
       case NotANumber => Refused(b, InternalError)
       case InRange(r) => Done(b.(targetHumidity := RoundHalfEven(r))))
    case _ => Refused(b, InvalidCommand)
  }

  function DoorLockEffect(b: Body, action: string, p: Payload, now: int): Effect
    requires b.DoorLock?
  {
    if b.jammed && (action == "lock" || action == "unlock") then
      Effect(b, Some(InternalError), true)
    else match action
    case "lock" => Done(b.(locked := true, autoLockAt := None))
    case "unlock" =>
      Done(b.(locked := false,
              autoLockAt := if b.autoLockEnabled
                            then Some(now + 1000 * b.autoLockDelaySeconds) else b.autoLockAt))
    case "setAutoLockConfig" =>
      var enabled := Field(p, "enabled");
      var delay := Field(p, "delaySeconds");
      if enabled.BoolV? && delay.IntV? && 5 <= delay.i <= 60 then
        Done(b.(autoLockEnabled := enabled.b, autoLockDelaySeconds := delay.i,
                autoLockAt := if enabled.b then b.autoLockAt else None))
      else Refused(b, InvalidCommand)
    case _ => Refused(b, InvalidCommand)
  }

  function Toward(position: int, target: int): Movement {
    if position < target then Opening else if target < position then Closing else Stopped
  }

  function CurtainEffect(b: Body, action: string, p: Payload): Effect
    requires b.Curtain?
  {
    var asked :=
      match action
      case "open" => Some(100)
      case "close" => Some(0)
      case "stop" => Some(b.position)
      case "setPosition" =>
        var v := Field(p, "positionPercent");
        if v.IntV? && 0 <= v.i <= 100 then Some(v.i) else None
      case _ => None;
    if asked.None? then Refused(b, InvalidCommand)
    else Done(b.(targetPosition := asked.value, movement := Toward(b.position, asked.value)))
  }

  /** The execute of the driver that owns the device. */
  function BodyEffect(b: Body, action: string, p: Payload, now: int): Effect {
    match b
    case Light(_, _, _, _, _) => LightEffect(b, action, p, now)
    case AirConditioner(_, _, _, _, _, _, _) => AirConditionerEffect(b, action, p)
    case BathHeater(_, _) => BathHeaterEffect(b, action, p)
    case Humidifier(_, _) => HumidifierEffect(b, action, p)
    case DoorLock(_, _, _, _, _, _) => DoorLockEffect(b, action, p, now)
    case Curtain(_, _, _) => CurtainEffect(b, action, p)
    case Environment(_, _, _, _, _, _) => Refused(b, InvalidCommand)
    case Plain => Refused(b, InvalidCommand)
  }

  /** A command to a device: DeviceRegistry._ensure_commandable, then the driver, then _touch. */
  datatype Answer = Answer(device: Device, error: Option<Code>, jamAlert: bool)

  const COMMAND_DELAY_LIMIT_MS := 5_000

  function Touched(d: Device, now: int): Device {
    d.(stateVersion := d.stateVersion + 1, updatedAt := now)
  }

  /** Why a device takes no command at all, whatever the command is. */
  function Obstacle(d: Device, expected: Option<int>): Option<Code> {
    if !d.online then Some(DeviceOffline)
    else if expected.Some? && expected.value != d.stateVersion then Some(StateConflict)
    else if d.commandDelayMs > COMMAND_DELAY_LIMIT_MS then Some(CommandTimeout)
    else if d.failNextCommand then Some(InternalError)
    else None
  }

  function Commanded(d: Device, action: string, p: Payload, expected: Option<int>, now: int): Answer {
    match Obstacle(d, expected)
    case Some(InternalError) => Answer(d.(failNextCommand := false), Some(InternalError), false)
    case Some(code) => Answer(d, Some(code), false)
    case None =>
      var e := BodyEffect(d.body, action, p, now);
      var written := d.(body := e.body);
      Answer(if e.error.None? then Touched(written, now) else written, e.error, e.jamAlert)
  }

  // ----- ticks

  /** What a light and an environment sensor read from other devices of their room. */
  datatype Sensed = Sensed(online: bool, presence: bool, lux: real)
  datatype Cooling = Cooling(online: bool, power: bool, mode: string, target: int)
  datatype Surroundings = Surroundings(sensor: Option<Sensed>, cooling: Option<Cooling>)

  /** The values a tick takes from sine waves of the clock and from random.uniform. */
  datatype Weather = Weather(
    ambientTemperature: real,
    ambientHumidity: real,
    lux: real,
    temperatureNoise: real,
    humidityNoise: real)

  datatype TickEffect = TickEffect(body: Body, changed: bool)

  function LightTick(b: Body, online: bool, now: int, around: Surroundings): TickEffect
    requires b.Light?
  {
    var still := TickEffect(b, false);
    if !online || !b.automation.enabled || around.sensor.None? || !around.sensor.value.online then
      still
    else if b.automation.manualOverrideUntil.Some? && now < b.automation.manualOverrideUntil.value then
      still
    else
      var sensor := around.sensor.value;
      if sensor.presence && sensor.lux < b.automation.thresholdLux as real then
        if b.power then TickEffect(b.(noPresenceSince := None), false)
        else TickEffect(b.(noPresenceSince := None, power := true,
                           brightness := Max(1, b.lastNonZero)), true)
      else if !sensor.presence then
        if b.noPresenceSince.None? then TickEffect(b.(noPresenceSince := Some(now)), false)
        else if b.power && now - b.noPresenceSince.value >= 1000 * b.automation.noPresenceDelaySeconds then
          TickEffect(b.(power := false), true)
        else still
      else still
  }

  function Drifted(previous: real, target: real, rate: real, noise: real): real {
    RoundTenth(previous + (target - previous) * rate + noise)
  }

  predicate PlausibleReading(temperature: real, humidity: real) {
    -10.0 <= temperature <= 45.0 && 0.0 <= humidity <= 100.0
  }

  function TargetTemperature(around: Surroundings, w: Weather): real {
    if around.cooling.Some? && around.cooling.value.online && around.cooling.value.power
       && around.cooling.value.mode in {"cool", "heat", "auto"}
    then around.cooling.value.target as real else w.ambientTemperature
  }

  function TargetHumidity(around: Surroundings, w: Weather): real {
    if around.cooling.Some? && around.cooling.value.online && around.cooling.value.power
       && around.cooling.value.mode == "dry"
    then 50.0 else w.ambientHumidity
  }

  function EnvironmentTick(b: Body, online: bool, now: int, around: Surroundings, w: Weather): TickEffect
    requires b.Environment?
  {
    var measures := online && now >= b.manualInjectionUntil;
    var read :=
      if measures then
        b.(temperature := Drifted(b.temperature, TargetTemperature(around, w), 0.08, w.temperatureNoise),
           humidity := Drifted(b.humidity, TargetHumidity(around, w), 0.06, w.humidityNoise),
           lux := RoundTenth(if w.lux < 0.0 then 0.0 else w.lux))
      else b;
    var valid := PlausibleReading(read.temperature, read.humidity);
    TickEffect(read.(dataValid := valid), measures || valid != b.dataValid)
  }

  function DoorLockTick(b: Body, online: bool, now: int): TickEffect
    requires b.DoorLock?
  {
    if online && !b.locked && b.autoLockEnabled && b.autoLockAt.Some? && now >= b.autoLockAt.value
    then TickEffect(b.(locked := true, autoLockAt := None), true)
    else TickEffect(b, false)
  }

  const CURTAIN_STEP := 10

  function CurtainTick(b: Body, online: bool): TickEffect
    requires b.Curtain?
  {
    if !online then TickEffect(b, false)
    else if b.position == b.targetPosition then
      TickEffect(b.(movement := Stopped), b.movement != Stopped)
    else
      var next := if b.position < b.targetPosition
                  then b.position + Min(CURTAIN_STEP, b.targetPosition - b.position)
                  else b.position - Min(CURTAIN_STEP, b.position - b.targetPosition);
      TickEffect(b.(position := next, movement := Toward(next, b.targetPosition)), true)
  }

  function BodyTick(b: Body, online: bool, now: int, around: Surroundings, w: Weather): TickEffect {
    match b
    case Light(_, _, _, _, _) => LightTick(b, online, now, around)
    case Environment(_, _, _, _, _, _) => EnvironmentTick(b, online, now, around, w)
    case DoorLock(_, _, _, _, _, _) => DoorLockTick(b, online, now)
    case Curtain(_, _, _) => CurtainTick(b, online)
    case _ => TickEffect(b, false)
  }

  function Ticked(d: Device, now: int, around: Surroundings, w: Weather): Device {
    var e := BodyTick(d.body, d.online, now, around, w);
    var written := d.(body := e.body);
    if e.changed then Touched(written, now) else written
  }

  // ----- injected faults and readings

  datatype Faults = Faults(
    online: Option<bool>,
    jammed: Option<bool>,
    battery: Option<int>,
    commandDelayMs: Option<int>,
    failNextCommand: Option<bool>)

  function Or<T>(v: Option<T>, default: T): T {
    if v.Some? then v.value else default
  }

  /** A fault that names a field the device does not have changes nothing. */
  predicate TouchedByFaults(d: Device, f: Faults) {
    || f.online.Some? || f.commandDelayMs.Some? || f.failNextCommand.Some?
    || (d.body.DoorLock? && (f.jammed.Some? || f.battery.Some?))
  }

  function Faulted(d: Device, f: Faults, now: int): Device {
    var written :=
      d.(online := Or(f.online, d.online),
         commandDelayMs := Or(f.commandDelayMs, d.commandDelayMs),
         failNextCommand := Or(f.failNextCommand, d.failNextCommand),
         body := if d.body.DoorLock?
                 then d.body.(jammed := Or(f.jammed, d.body.jammed), battery := Or(f.battery, d.body.battery))
                 else d.body);
    if TouchedByFaults(d, f) then Touched(written, now) else written
  }

  datatype Readings = Readings(
    temperature: Option<real>,
    humidity: Option<real>,
    lux: Option<real>,
    presence: Option<bool>)

  const MANUAL_INJECTION_MS := 30_000

  function Injected(d: Device, r: Readings, now: int): Device
    requires d.body.Environment?
  {
    Touched(d.(body := d.body.(temperature := Or(r.temperature, d.body.temperature),
                               humidity := Or(r.humidity, d.body.humidity),
                               lux := Or(r.lux, d.body.lux),
                               presence := Or(r.presence, d.body.presence),
                               manualInjectionUntil := now + MANUAL_INJECTION_MS)), now)
  }
}
