/**
 * The drivers of the gateway: each command and each tick writes the fields of one device in place, in the
 * program's order, and is proved to leave what Devices says.
 */
module Drivers {
  import opened Wrappers
  import opened Devices

  /** One device dictionary. */
  class DeviceRecord {
    const id: string
    const name: string
    const roomId: string
    const kind: string
    const categoryId: Option<string>
    const removable: bool
    const capabilities: Option<multiset<string>>
    var online: bool
    var stateVersion: int
    var updatedAt: int
    var commandDelayMs: int
    var failNextCommand: bool
    var body: Body

    constructor (d: Device)
      ensures View() == d
    {
      id, name, roomId, kind := d.id, d.name, d.roomId, d.kind;
      categoryId, removable, capabilities := d.categoryId, d.removable, d.capabilities;
      online, stateVersion, updatedAt := d.online, d.stateVersion, d.updatedAt;
      commandDelayMs, failNextCommand := d.commandDelayMs, d.failNextCommand;
      body := d.body;
    }

    function View(): Device
      reads this
    {
      Device(id, name, roomId, kind, categoryId, removable, capabilities, online, stateVersion, updatedAt,
             commandDelayMs, failNextCommand, body)
    }

    method Touch(now: int)
      modifies this
      ensures View() == Touched(old(View()), now)
    {
      stateVersion := stateVersion + 1;
      updatedAt := now;
    }
  }

  // ----- lights

  method LightExecute(d: DeviceRecord, action: string, p: Payload, now: int) returns (error: Option<Code>)
    requires d.body.Light?
    modifies d`body
    ensures Effect(d.body, error, false) == LightEffect(old(d.body), action, p, now)
  {
    if action == "setPower" {
      var power := Field(p, "power");
      if !power.BoolV? {
        return Some(InvalidCommand);
      }
      d.body := d.body.(power := power.b);
      if power.b && d.body.brightness == 0 {
        d.body := d.body.(brightness := Max(1, d.body.lastNonZero));
      }
      OverrideAutomation(d, now);
    } else if action == "setBrightness" {
      var brightness := ReadNumber(Field(p, "brightness"), 0.0, 100.0);
      if brightness.OutOfRange? {
        return Some(InvalidCommand);
      }
      if brightness.NotANumber? {
        return Some(InternalError);
      }
      var value := brightness.value.Floor;
      d.body := d.body.(brightness := value);
      d.body := d.body.(power := value > 0);
      if value > 0 {
        d.body := d.body.(lastNonZero := value);
      }
      OverrideAutomation(d, now);
    } else if action == "setAutomationConfig" {
      var enabled := Field(p, "enabled");
      var threshold := ReadNumber(Field(p, "illuminanceThresholdLux"), 10.0, 500.0);
      var delay := ReadNumber(Field(p, "noPresenceDelaySeconds"), 5.0, 600.0);
      if !enabled.BoolV? {
        return Some(InvalidCommand);
      }
      if threshold.OutOfRange? {
        return Some(InvalidCommand);
      }
      if delay.OutOfRange? {
        return Some(InvalidCommand);
      }
      if threshold.NotANumber? || delay.NotANumber? {
        return Some(InternalError);
      }
      d.body := d.body.(automation := Automation(enabled.b, threshold.value.Floor, delay.value.Floor, None));
      d.body := d.body.(noPresenceSince := None);
    } else {
      return Some(InvalidCommand);
    }
    return None;
  }

  method OverrideAutomation(d: DeviceRecord, now: int)
    requires d.body.Light?
    modifies d`body
    ensures d.body == old(d.body).(automation := old(d.body).automation
                                     .(manualOverrideUntil := Some(now + MANUAL_OVERRIDE_MS)))
  {
    d.body := d.body.(automation := d.body.automation.(manualOverrideUntil := Some(now + MANUAL_OVERRIDE_MS)));
  }

  method LightDriverTick(d: DeviceRecord, now: int, around: Surroundings) returns (changed: bool)
    requires d.body.Light?
    modifies d`body
    ensures TickEffect(d.body, changed) == LightTick(old(d.body), d.online, now, around)
  {
    if !d.online || !d.body.automation.enabled {
      return false;
    }
    if around.sensor.None? || !around.sensor.value.online {
      return false;
    }
    var environment := around.sensor.value;
    var overrideUntil := d.body.automation.manualOverrideUntil;
    if overrideUntil.Some? && now < overrideUntil.value {
      return false;
    }
    if environment.presence && environment.lux < d.body.automation.thresholdLux as real {
      d.body := d.body.(noPresenceSince := None);
      if !d.body.power {
        d.body := d.body.(power := true);
        d.body := d.body.(brightness := Max(1, d.body.lastNonZero));
        return true;
      }
      return false;
    }
    if !environment.presence {
      if d.body.noPresenceSince.None? {
        d.body := d.body.(noPresenceSince := Some(now));
      } else if d.body.power
                && now - d.body.noPresenceSince.value >= 1000 * d.body.automation.noPresenceDelaySeconds {
        d.body := d.body.(power := false);
        return true;
      }
    }
    return false;
  }

  // ----- environment sensors

  method EnvironmentDriverTick(d: DeviceRecord, now: int, around: Surroundings, w: Weather) returns (changed: bool)
    requires d.body.Environment?
    modifies d`body
    ensures TickEffect(d.body, changed) == EnvironmentTick(old(d.body), d.online, now, around, w)
  {
    hide RoundTenth;
    changed := false;
    if d.online && now >= d.body.manualInjectionUntil {
      var targetTemperature, targetHumidity := w.ambientTemperature, w.ambientHumidity;
      if around.cooling.Some? && around.cooling.value.online && around.cooling.value.power {
        var mode := around.cooling.value.mode;
        if mode in {"cool", "heat", "auto"} {
          targetTemperature := around.cooling.value.target as real;
        }
        if mode == "dry" {
          targetHumidity := 50.0;
        }
      }
      var oldTemperature, oldHumidity := d.body.temperature, d.body.humidity;
      d.body := d.body.(temperature :=
        RoundTenth(oldTemperature + (targetTemperature - oldTemperature) * 0.08 + w.temperatureNoise));
      d.body := d.body.(humidity :=
        RoundTenth(oldHumidity + (targetHumidity - oldHumidity) * 0.06 + w.humidityNoise));
      d.body := d.body.(lux := RoundTenth(if w.lux < 0.0 then 0.0 else w.lux));
      changed := true;
    }
    var dataValid := !(d.body.temperature < -10.0 || d.body.temperature > 45.0 || d.body.humidity < 0.0
                       || d.body.humidity > 100.0);
    if dataValid != d.body.dataValid {
      d.body := d.body.(dataValid := dataValid);
      changed := true;
    }
  }

  // ----- air conditioners

  /** The fields are written before the adapter validates the command. */
  method AirConditionerExecute(d: DeviceRecord, action: string, p: Payload) returns (error: Option<Code>)
    requires d.body.AirConditioner?
    modifies d`body
    ensures Effect(d.body, error, false) == AirConditionerEffect(old(d.body), action, p)
  {
    hide AdapterAccepts, Field;
    var command := EMPTY_AC_COMMAND.(action := action);
    if action == "setPower" {
      var power := Field(p, "power");
      if !power.BoolV? {
        return Some(InvalidCommand);
      }
      command := command.(power := Some(power.b));
      d.body := d.body.(acPower := power.b);
      d.body := d.body.(running := power.b);
    } else if action == "setMode" {
      var mode := Field(p, "mode");
      if !mode.StrV? {
        return Some(InvalidCommand);
      }
      command := command.(mode := Some(mode.s));
      d.body := d.body.(mode := mode.s);
    } else if action == "setTemperature" {
      var temperature := Field(p, "temperatureCelsius");
      if !temperature.IntV? {
        return Some(InvalidCommand);
      }
      command := command.(temperature := Some(temperature.i));
      d.body := d.body.(target := temperature.i);
    } else if action == "setFanSpeed" {
      var fanSpeed := Field(p, "fanSpeed");
      if !fanSpeed.StrV? {
        return Some(InvalidCommand);
      }
      command := command.(fanSpeed := Some(fanSpeed.s));
      d.body := d.body.(fanSpeed := fanSpeed.s);
    } else if action == "setDehumidify" {
      var enabled := Field(p, "enabled");
      if !enabled.BoolV? {
        return Some(InvalidCommand);
      }
      d.body := d.body.(mode := "dry");
      d.body := d.body.(acPower := enabled.b);
      d.body := d.body.(running := enabled.b);
      command := EMPTY_AC_COMMAND.(action := "setMode", mode := Some("dry"));
    } else if action == "setBrand" {
      var brand := Field(p, "brand");
      if !brand.StrV? || brand.s !in BRANDS {
        return Some(InvalidCommand);
      }
      d.body := d.body.(brand := brand.s);
      command := EMPTY_AC_COMMAND.(action := "setPower", power := Some(d.body.acPower));
    } else {
      return Some(InvalidCommand);
    }
    if d.body.brand !in BRANDS || !AdapterAccepts(command) {
      return Some(InvalidCommand);
    }
    d.body := d.body.(lastFrame := Some(Frame(d.body.brand, command)));
    return None;
  }

  // ----- bath heaters and humidifiers

  method BathHeaterExecute(d: DeviceRecord, action: string, p: Payload) returns (error: Option<Code>)
    requires d.body.BathHeater?
    modifies d`body
    ensures Effect(d.body, error, false) == BathHeaterEffect(old(d.body), action, p)
  {
    if action == "setPower" {
      var power := Field(p, "power");
      if !power.BoolV? {
        return Some(InvalidCommand);
      }
      d.body := d.body.(bathPower := power.b);
      return None;
    }
    if action == "setMode" {
      var mode := Field(p, "mode");
      if !mode.StrV? || mode.s !in BATH_MODES {
        return Some(InvalidCommand);
      }
      d.body := d.body.(bathMode := mode.s);
      return None;
    }
    return Some(InvalidCommand);
  }

  method HumidifierExecute(d: DeviceRecord, action: string, p: Payload) returns (error: Option<Code>)
    requires d.body.Humidifier?
    modifies d`body
    ensures Effect(d.body, error, false) == HumidifierEffect(old(d.body), action, p)
  {
    if action == "setPower" {
      var power := Field(p, "power");
      if !power.BoolV? {
        return Some(InvalidCommand);
      }
      d.body := d.body.(humPower := power.b);
      return None;
    }
    if action == "setTargetHumidity" {
      var target := ReadNumber(Field(p, "targetHumidityPercent"), 35.0, 75.0);
      if target.OutOfRange? {
        return Some(InvalidCommand);
      }
      if target.NotANumber? {
        return Some(InternalError);
      }
      d.body := d.body.(targetHumidity := RoundHalfEven(target.value));
      return None;
    }
    return Some(InvalidCommand);
  }

  // ----- door locks

  method DoorLockExecute(d: DeviceRecord, action: string, p: Payload, now: int)
    returns (error: Option<Code>, jamAlert: bool)
    requires d.body.DoorLock?
    modifies d`body
    ensures Effect(d.body, error, jamAlert) == DoorLockEffect(old(d.body), action, p, now)
  {
    jamAlert := false;
    if d.body.jammed && (action == "lock" || action == "unlock") {
      return Some(InternalError), true;
    }
    if action == "lock" {
      d.body := d.body.(locked := true);
      d.body := d.body.(autoLockAt := None);
    } else if action == "unlock" {
      d.body := d.body.(locked := false);
      if d.body.autoLockEnabled {
        d.body := d.body.(autoLockAt := Some(now + 1000 * d.body.autoLockDelaySeconds));
      }
    } else if action == "setAutoLockConfig" {
      var enabled := Field(p, "enabled");
      var delay := Field(p, "delaySeconds");
      if !enabled.BoolV? {
        return Some(InvalidCommand), false;
      }
      if !delay.IntV? || delay.i < 5 || delay.i > 60 {
        return Some(InvalidCommand), false;
      }
      d.body := d.body.(autoLockEnabled := enabled.b);
      d.body := d.body.(autoLockDelaySeconds := delay.i);
      if !enabled.b {
        d.body := d.body.(autoLockAt := None);
      }
    } else {
      return Some(InvalidCommand), false;
    }
    error := None;
  }

  method DoorLockDriverTick(d: DeviceRecord, now: int) returns (changed: bool)
    requires d.body.DoorLock?
    modifies d`body
    ensures TickEffect(d.body, changed) == DoorLockTick(old(d.body), d.online, now)
  {
    var autoLockAt := d.body.autoLockAt;
    if d.online && !d.body.locked && d.body.autoLockEnabled && autoLockAt.Some? && now >= autoLockAt.value {
      d.body := d.body.(locked := true);
      d.body := d.body.(autoLockAt := None);
      return true;
    }
    return false;
  }

  // ----- curtains

  method CurtainExecute(d: DeviceRecord, action: string, p: Payload) returns (error: Option<Code>)
    requires d.body.Curtain?
    modifies d`body
    ensures Effect(d.body, error, false) == CurtainEffect(old(d.body), action, p)
  {
    var current := d.body.position;
    var target: int;
    if action == "open" {
      target := 100;
    } else if action == "close" {
      target := 0;
    } else if action == "stop" {
      target := current;
    } else if action == "setPosition" {
      var value := Field(p, "positionPercent");
      if !value.IntV? || value.i < 0 || value.i > 100 {
        return Some(InvalidCommand);
      }
      target := value.i;
    } else {
      return Some(InvalidCommand);
    }
    d.body := d.body.(targetPosition := target);
    if target > current {
      d.body := d.body.(movement := Opening);
    } else if target < current {
      d.body := d.body.(movement := Closing);
    } else {
      d.body := d.body.(movement := Stopped);
    }
    return None;
  }

  method CurtainDriverTick(d: DeviceRecord) returns (changed: bool)
    requires d.body.Curtain?
    modifies d`body
    ensures TickEffect(d.body, changed) == CurtainTick(old(d.body), d.online)
  {
    if !d.online {
      return false;
    }
    var current, target := d.body.position, d.body.targetPosition;
    if current == target {
      if d.body.movement != Stopped {
        d.body := d.body.(movement := Stopped);
        return true;
      }
      return false;
    }
    var step := Min(10, if target > current then target - current else current - target);
    if target > current {
      current := current + step;
      d.body := d.body.(movement := Opening);
    } else {
      current := current - step;
      d.body := d.body.(movement := Closing);
    }
    d.body := d.body.(position := current);
    if current == target {
      d.body := d.body.(movement := Stopped);
    }
    return true;
  }

  // ----- the driver a device has

  method DriverExecute(d: DeviceRecord, action: string, p: Payload, now: int)
    returns (error: Option<Code>, jamAlert: bool)
    modifies d`body
    ensures Effect(d.body, error, jamAlert) == BodyEffect(old(d.body), action, p, now)
  {
    hide LightEffect, AirConditionerEffect, BathHeaterEffect, HumidifierEffect, DoorLockEffect, CurtainEffect;
    jamAlert := false;
    match d.body
    case Light(_, _, _, _, _) => error := LightExecute(d, action, p, now);
    case AirConditioner(_, _, _, _, _, _, _) => error := AirConditionerExecute(d, action, p);
    case BathHeater(_, _) => error := BathHeaterExecute(d, action, p);
    case Humidifier(_, _) => error := HumidifierExecute(d, action, p);
    case DoorLock(_, _, _, _, _, _) => error, jamAlert := DoorLockExecute(d, action, p, now);
    case Curtain(_, _, _) => error := CurtainExecute(d, action, p);
    case _ => error := Some(InvalidCommand);
  }

  method DriverTick(d: DeviceRecord, now: int, around: Surroundings, w: Weather) returns (changed: bool)
    modifies d`body
    ensures TickEffect(d.body, changed) == BodyTick(old(d.body), d.online, now, around, w)
  {
    hide LightTick, EnvironmentTick, DoorLockTick, CurtainTick;
    match d.body
    case Light(_, _, _, _, _) => changed := LightDriverTick(d, now, around);
    case Environment(_, _, _, _, _, _) => changed := EnvironmentDriverTick(d, now, around, w);
    case DoorLock(_, _, _, _, _, _) => changed := DoorLockDriverTick(d, now);
    case Curtain(_, _, _) => changed := CurtainDriverTick(d);
    case _ => changed := false;
  }
}
