/**
 * What a direct command does, family by family: which payloads are accepted, which code a refusal carries and
 * what an accepted command writes.
 */
module CommandLaws {
  import opened Wrappers
  import opened Devices
  import opened Registry
  import opened Operations
  import opened Scenes

  // ----- payloads

  predicate HasFlag(p: Payload, key: string) {
    key in p && p[key].BoolV?
  }

  predicate HasText(p: Payload, key: string) {
    key in p && p[key].StrV?
  }

  predicate HasWhole(p: Payload, key: string) {
    key in p && p[key].IntV?
  }

  /** A whole or a fractional number in the range; a flag is no number. */
  predicate HasNumber(p: Payload, key: string, lo: int, hi: int) {
    key in p && match p[key]
      case IntV(i) => lo <= i <= hi
      case FloatV(r) => lo as real <= r <= hi as real
      case _ => false
  }

  function NumberIn(p: Payload, key: string): real
    requires key in p && (p[key].IntV? || p[key].FloatV?)
  {
    if p[key].IntV? then p[key].i as real else p[key].r
  }

  predicate HasNaN(p: Payload, key: string) {
    key in p && p[key].NaNV?
  }

  predicate HasNumberOrNaN(p: Payload, key: string, lo: int, hi: int) {
    HasNumber(p, key, lo, hi) || HasNaN(p, key)
  }

  // ----- whatever the command

  /** The device takes commands, and the sender is not behind. */
  predicate Free(d: Device, expected: Option<int>) {
    d.online && (expected.Some? ==> expected.value == d.stateVersion) && d.commandDelayMs <= 5000 && !d.failNextCommand
  }

  /** The four reasons for which a device takes no command at all, the first that applies; only the injected failure
      leaves a trace. */
  lemma TakesNoCommand(d: Device, action: string, p: Payload, expected: Option<int>, now: int)
    requires !Free(d, expected)
    ensures var a := Commanded(d, action, p, expected, now);
      && !a.jamAlert
      && a.error == Some(if !d.online then DeviceOffline
                         else if expected.Some? && expected.value != d.stateVersion then StateConflict
                         else if d.commandDelayMs > 5000 then CommandTimeout
                         else InternalError)
      && (a.error != Some(InternalError) ==> a.device == d)
      && (a.error == Some(InternalError) ==> a.device == d.(failNextCommand := false))
  {
  }

  /** An accepted command raises the version by one, stamps the time and writes the body it is said to write. */
  predicate Writes(d: Device, a: Answer, now: int, body: Body) {
    a == Answer(d.(stateVersion := d.stateVersion + 1, updatedAt := now, body := body), None, false)
  }

  predicate RefusesWith(d: Device, a: Answer, code: Code) {
    a == Answer(d, Some(code), false)
  }

  // ----- lights

  lemma LightCommand(d: Device, action: string, p: Payload, expected: Option<int>, now: int)
    requires d.body.Light? && Free(d, expected)
    ensures var a, b := Commanded(d, action, p, expected, now), d.body;
      && (action == "setPower" ==>
            if HasFlag(p, "power")
            then Writes(d, a, now,
                        b.(power := p["power"].b,
                           brightness := if p["power"].b && b.brightness == 0
                                         then (if b.lastNonZero < 1 then 1 else b.lastNonZero) else b.brightness,
                           automation := b.automation.(manualOverrideUntil := Some(now + 300_000))))
            else RefusesWith(d, a, InvalidCommand))
      && (action == "setBrightness" ==>
            if HasNumber(p, "brightness", 0, 100)
            then var value := NumberIn(p, "brightness").Floor;
                 Writes(d, a, now,
                        b.(power := value > 0, brightness := value,
                           lastNonZero := if value > 0 then value else b.lastNonZero,
                           automation := b.automation.(manualOverrideUntil := Some(now + 300_000))))
            else RefusesWith(d, a, if HasNaN(p, "brightness") then InternalError else InvalidCommand))
      && (action == "setAutomationConfig" ==>
            if HasFlag(p, "enabled") && HasNumber(p, "illuminanceThresholdLux", 10, 500)
               && HasNumber(p, "noPresenceDelaySeconds", 5, 600)
            then Writes(d, a, now,
                        b.(automation := Automation(p["enabled"].b, NumberIn(p, "illuminanceThresholdLux").Floor,
                                                    NumberIn(p, "noPresenceDelaySeconds").Floor, None),
                           noPresenceSince := None))
            else RefusesWith(d, a,
                   if HasFlag(p, "enabled") && HasNumberOrNaN(p, "illuminanceThresholdLux", 10, 500)
                      && HasNumberOrNaN(p, "noPresenceDelaySeconds", 5, 600)
                   then InternalError else InvalidCommand))
      && (action !in {"setPower", "setBrightness", "setAutomationConfig"} ==> RefusesWith(d, a, InvalidCommand))
  {
  }

  // ----- air conditioners

  /** The fields are written first; the version rises and the frame changes only when the adapter accepts. */
  predicate WritesFirst(d: Device, a: Answer, now: int, body: Body, accepted: bool, command: AcCommand)
    requires body.AirConditioner?
  {
    if accepted then Writes(d, a, now, body.(lastFrame := Some(Frame(body.brand, command))))
    else a == Answer(d.(body := body), Some(InvalidCommand), false)
  }

  lemma AirConditionerSwitch(d: Device, action: string, p: Payload, expected: Option<int>, now: int)
    requires d.body.AirConditioner? && Free(d, expected)
    requires d.body.brand in {"generic", "haierSim", "greeSim", "mideaSim"}
    ensures var a, b := Commanded(d, action, p, expected, now), d.body;
      && (action == "setPower" ==>
            if HasFlag(p, "power")
            then WritesFirst(d, a, now, b.(acPower := p["power"].b, running := p["power"].b), true,
                             AcCommand("setPower", Some(p["power"].b), None, None, None))
            else RefusesWith(d, a, InvalidCommand))
      && (action == "setDehumidify" ==>
            if HasFlag(p, "enabled")
            then WritesFirst(d, a, now, b.(mode := "dry", acPower := p["enabled"].b, running := p["enabled"].b), true,
                             AcCommand("setMode", None, Some("dry"), None, None))
            else RefusesWith(d, a, InvalidCommand))
      && (action == "setBrand" ==>
            if HasText(p, "brand") && p["brand"].s in {"generic", "haierSim", "greeSim", "mideaSim"}
            then WritesFirst(d, a, now, b.(brand := p["brand"].s), true,
                             AcCommand("setPower", Some(b.acPower), None, None, None))
            else RefusesWith(d, a, InvalidCommand))
      && (action !in {"setPower", "setMode", "setTemperature", "setFanSpeed", "setDehumidify", "setBrand"} ==>
            RefusesWith(d, a, InvalidCommand))
  {
  }

  lemma AirConditionerSetting(d: Device, action: string, p: Payload, expected: Option<int>, now: int)
    requires d.body.AirConditioner? && Free(d, expected)
    requires d.body.brand in {"generic", "haierSim", "greeSim", "mideaSim"}
    ensures var a, b := Commanded(d, action, p, expected, now), d.body;
      && (action == "setMode" ==>
            if HasText(p, "mode")
            then WritesFirst(d, a, now, b.(mode := p["mode"].s),
                             p["mode"].s in {"auto", "cool", "heat", "dry", "fan"},
                             AcCommand("setMode", None, Some(p["mode"].s), None, None))
            else RefusesWith(d, a, InvalidCommand))
      && (action == "setTemperature" ==>
            if HasWhole(p, "temperatureCelsius")
            then WritesFirst(d, a, now, b.(target := p["temperatureCelsius"].i),
                             16 <= p["temperatureCelsius"].i <= 30,
                             AcCommand("setTemperature", None, None, Some(p["temperatureCelsius"].i), None))
            else RefusesWith(d, a, InvalidCommand))
      && (action == "setFanSpeed" ==>
            if HasText(p, "fanSpeed")
            then WritesFirst(d, a, now, b.(fanSpeed := p["fanSpeed"].s),
                             p["fanSpeed"].s in {"auto", "low", "medium", "high"},
                             AcCommand("setFanSpeed", None, None, None, Some(p["fanSpeed"].s)))
            else RefusesWith(d, a, InvalidCommand))
  {
  }

  // ----- bath heaters, humidifiers

  lemma BathHeaterCommand(d: Device, action: string, p: Payload, expected: Option<int>, now: int)
    requires d.body.BathHeater? && Free(d, expected)
    ensures var a, b := Commanded(d, action, p, expected, now), d.body;
      && (action == "setPower" ==>
            if HasFlag(p, "power") then Writes(d, a, now, BathHeater(p["power"].b, b.bathMode))
            else RefusesWith(d, a, InvalidCommand))
      && (action == "setMode" ==>
            if HasText(p, "mode") && p["mode"].s in {"warm", "ventilate", "dry"}
            then Writes(d, a, now, BathHeater(b.bathPower, p["mode"].s))
            else RefusesWith(d, a, InvalidCommand))
      && (action !in {"setPower", "setMode"} ==> RefusesWith(d, a, InvalidCommand))
  {
  }

  /** The nearest whole number, the even one of two that are equally near. */
  predicate IsRounded(n: int, r: real) {
    -0.5 <= n as real - r <= 0.5 && (n as real - r == 0.5 || n as real - r == -0.5 ==> n % 2 == 0)
  }

  lemma HumidifierCommand(d: Device, action: string, p: Payload, expected: Option<int>, now: int)
    requires d.body.Humidifier? && Free(d, expected)
    ensures var a, b := Commanded(d, action, p, expected, now), d.body;
      && (action == "setPower" ==>
            if HasFlag(p, "power") then Writes(d, a, now, Humidifier(p["power"].b, b.targetHumidity))
            else RefusesWith(d, a, InvalidCommand))
      && (action == "setTargetHumidity" ==>
            if HasNumber(p, "targetHumidityPercent", 35, 75)
            then exists n :: IsRounded(n, NumberIn(p, "targetHumidityPercent"))
                             && Writes(d, a, now, Humidifier(b.humPower, n))
            else RefusesWith(d, a, if HasNaN(p, "targetHumidityPercent") then InternalError else InvalidCommand))
      && (action !in {"setPower", "setTargetHumidity"} ==> RefusesWith(d, a, InvalidCommand))
  {
    if action == "setTargetHumidity" && HasNumber(p, "targetHumidityPercent", 35, 75) {
      var n := RoundHalfEven(NumberIn(p, "targetHumidityPercent"));
      assert IsRounded(n, NumberIn(p, "targetHumidityPercent"));
      assert Writes(d, Commanded(d, action, p, expected, now), now, Humidifier(d.body.humPower, n));
    }
  }

  // ----- doors

  /** A jammed door is neither locked nor unlocked: the refusal raises an alert. */
  lemma DoorLockCommand(d: Device, action: string, p: Payload, expected: Option<int>, now: int)
    requires d.body.DoorLock? && Free(d, expected)
    ensures var a, b := Commanded(d, action, p, expected, now), d.body;
      && (b.jammed && (action == "lock" || action == "unlock") ==> a == Answer(d, Some(InternalError), true))
      && (!b.jammed && action == "lock" ==> Writes(d, a, now, b.(locked := true, autoLockAt := None)))
      && (!b.jammed && action == "unlock" ==>
            Writes(d, a, now,
                   b.(locked := false,
                      autoLockAt := if b.autoLockEnabled then Some(now + 1000 * b.autoLockDelaySeconds)
                                    else b.autoLockAt)))
      && (action == "setAutoLockConfig" ==>
            if HasFlag(p, "enabled") && HasWhole(p, "delaySeconds") && 5 <= p["delaySeconds"].i <= 60
            then Writes(d, a, now,
                        b.(autoLockEnabled := p["enabled"].b, autoLockDelaySeconds := p["delaySeconds"].i,
                           autoLockAt := if p["enabled"].b then b.autoLockAt else None))
            else RefusesWith(d, a, InvalidCommand))
      && (action !in {"lock", "unlock", "setAutoLockConfig"} ==> RefusesWith(d, a, InvalidCommand))
  {
  }

  // ----- curtains

  /** A curtain is sent to the target and moves toward it. */
  predicate SentTo(d: Device, a: Answer, now: int, target: int)
    requires d.body.Curtain?
  {
    Writes(d, a, now,
           Curtain(d.body.position, target,
                   if target > d.body.position then Opening else if target < d.body.position then Closing else Stopped))
  }

  lemma CurtainCommand(d: Device, action: string, p: Payload, expected: Option<int>, now: int)
    requires d.body.Curtain? && Free(d, expected)
    ensures var a, b := Commanded(d, action, p, expected, now), d.body;
      && (action == "open" ==> SentTo(d, a, now, 100))
      && (action == "close" ==> SentTo(d, a, now, 0))
      && (action == "stop" ==> SentTo(d, a, now, b.position))
      && (action == "setPosition" ==>
            if HasWhole(p, "positionPercent") && 0 <= p["positionPercent"].i <= 100
            then SentTo(d, a, now, p["positionPercent"].i)
            else RefusesWith(d, a, InvalidCommand))
      && (action !in {"open", "close", "stop", "setPosition"} ==> RefusesWith(d, a, InvalidCommand))
  {
  }

  /** Sensors and devices of other drivers take no command. */
  lemma OtherCommand(d: Device, action: string, p: Payload, expected: Option<int>, now: int)
    requires (d.body.Environment? || d.body.Plain?) && Free(d, expected)
    ensures RefusesWith(d, Commanded(d, action, p, expected, now), InvalidCommand)
  {
  }

  // ----- in the registry

  /** A command to a device, in the registry: that device and no other becomes what the command makes of it, a jam is
      recorded, and the answer is the device's view or the error. */
  lemma DirectCommand(reg: Reg, id: string, action: string, p: Payload, expected: Option<int>, now: int)
    requires Listed(reg) && id != "scene-away" && id != "scene-home"
    ensures var after := Step(reg, Command(id, action, p, expected, now));
            var c := Execute(reg, id, action, p, expected, now);
      && (id !in reg.devices ==> after == reg && c.result == Err(InvalidCommand))
      && (id in reg.devices ==>
            var a := Commanded(reg.devices[id], action, p, expected, now);
            && after.devices == reg.devices[id := a.device]
            && after == reg.(devices := after.devices, alerts := after.alerts)
            && after.alerts == (if a.jamAlert then reg.alerts + [DoorJammed(id, now)] else reg.alerts)
            && c.result == (if a.error.Some? then Err(a.error.value)
                            else Ok(OneDevice(PublicView(a.device, reg.categories))))
            && Perform(reg, Command(id, action, p, expected, now)).announced ==
               (if a.error.Some? then [] else [PublicView(a.device, reg.categories)]))
  {
    hide Commanded, PublicView;
  }

  /** The id of a scene takes its one action and nothing else. */
  lemma SceneCommand(reg: Reg, id: string, action: string, p: Payload, expected: Option<int>, now: int)
    requires Listed(reg) && (id == "scene-away" || id == "scene-home")
    ensures var c := Execute(reg, id, action, p, expected, now);
      && (c.result.Ok? <==> action == (if id == "scene-away" then "executeAway" else "executeHome"))
      && (c.result.Err? ==> c == Changed(reg, Err(InvalidCommand)))
      && (c.result.Ok? ==> c.result.value.SceneDetails?)
  {
    hide ExecuteAway, ExecuteHome;
  }
}
