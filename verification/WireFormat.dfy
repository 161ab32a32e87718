/**
 * From the gateway to the client: the JSON record of a public view, and what the client's device
 * parser makes of it.  The texts of a time and of an adapter frame stay abstract.
 */
module WireFormat {
  import opened Wrappers
  import opened DeviceCodec
  import opened CodecLaws
  import D = Devices
  import Registry
  import Structure

  datatype Texts = Texts(stamp: int -> string, frame: D.Frame -> string)

  /** Every time has a text, of at most 128 characters. */
  ghost predicate TextsOk(texts: Texts) {
    forall at :: ShortOk(texts.stamp(at), 128)
  }

  // ----- the record the gateway sends

  function Info(c: D.Category): CategoryInfo {
    CategoryInfo(c.id, c.title, c.icon, c.homeOnly)
  }

  function WithCategory(fields: Fields, category: Option<D.Category>): Fields {
    if category.Some? then fields["category" := Record(CategoryFields(Info(category.value)))] else fields
  }

  /** The fields of base_device, and the flag and the category that public_device adds. */
  function Common(v: D.PublicDevice, texts: Texts): Fields {
    WithCategory(
      map["id" := Text(v.id), "name" := Text(v.name), "roomId" := Text(v.roomId), "type" := Text(v.kind),
          "online" := Bool(v.online), "stateVersion" := Int(v.stateVersion),
          "updatedAt" := Text(texts.stamp(v.updatedAt)), "removable" := Bool(v.removable)],
      v.category)
  }

  function Nullable(i: Option<int>): Json {
    if i.Some? then Int(i.value) else Null
  }

  function AutomationWire(a: D.Automation): Fields {
    map["enabled" := Bool(a.enabled), "illuminanceThresholdLux" := Int(a.thresholdLux),
        "noPresenceDelaySeconds" := Int(a.noPresenceDelaySeconds),
        "manualOverrideUntil" := Nullable(a.manualOverrideUntil)]
  }

  function FrameText(frame: Option<D.Frame>, texts: Texts): string {
    if frame.Some? then texts.frame(frame.value) else ""
  }

  const POWER_TOGGLE :=
    Control("power", "toggle", "开关", "setPower", "power", "power", 0.0, 0.0, 1.0, "", [], true, false)
  const BATH_OPTIONS :=
    [ControlOption("warm", "暖风"), ControlOption("ventilate", "换气"), ControlOption("dry", "干燥")]
  const BATH_MODE :=
    Control("mode", "enum", "工作模式", "setMode", "mode", "mode", 0.0, 0.0, 1.0, "", BATH_OPTIONS, false, false)
  const TARGET_HUMIDITY :=
    Control("targetHumidity", "slider", "目标湿度", "setTargetHumidity", "targetHumidityPercent",
            "targetHumidityPercent", 35.0, 75.0, 1.0, "%", [], false, false)
  const POSITION :=
    Control("position", "slider", "开合度", "setPosition", "positionPercent", "positionPercent",
            0.0, 100.0, 1.0, "%", [], true, false)
  const OPEN := Control("open", "button", "打开", "open", "", "", 0.0, 0.0, 1.0, "", [], false, false)
  const STOP := Control("stop", "button", "暂停", "stop", "", "", 0.0, 0.0, 1.0, "", [], false, false)
  const CLOSE := Control("close", "button", "关闭", "close", "", "", 0.0, 0.0, 1.0, "", [], false, false)

  const BATH_CONTROLS := [POWER_TOGGLE, BATH_MODE]
  const HUMIDIFIER_CONTROLS := [POWER_TOGGLE, TARGET_HUMIDITY]
  const CURTAIN_BUTTONS := [OPEN, STOP, CLOSE]
  const CURTAIN_CONTROLS := [POSITION] + CURTAIN_BUTTONS

  /** The position slider is sent with its confirmation flag, which is false. */
  function CurtainControlsWire(): (items: seq<Json>)
    ensures |items| == 4
  {
    [Record(ControlFields(POSITION)["requiresConfirmation" := Bool(false)])] + ControlsJson(CURTAIN_BUTTONS)
  }

  function MovementText(m: D.Movement): string {
    match m
    case Stopped => "stopped"
    case Opening => "opening"
    case Closing => "closing"
  }

  /** The state record of the families that are drawn from their controls. */
  function StateWire(b: D.Body): Fields {
    match b
    case BathHeater(power, mode) => map["power" := Bool(power), "mode" := Text(mode)]
    case Humidifier(power, target) => map["power" := Bool(power), "targetHumidityPercent" := Int(target)]
    case Curtain(position, target, movement) =>
      map["positionPercent" := Int(position), "targetPositionPercent" := Int(target),
          "movement" := Text(MovementText(movement))]
    case _ => map[]
  }

  function ControlsWire(b: D.Body): seq<Json> {
    match b
    case BathHeater(_, _) => ControlsJson(BATH_CONTROLS)
    case Humidifier(_, _) => ControlsJson(HUMIDIFIER_CONTROLS)
    case Curtain(_, _, _) => CurtainControlsWire()
    case _ => []
  }

  /** A device of another driver is sent with its common fields; the driver's own stay abstract. */
  function Wire(v: D.PublicDevice, texts: Texts): Fields {
    match v.body
    case Light(power, brightness, lastNonZero, automation, _) =>
      Common(v, texts)["power" := Bool(power)]["brightness" := Int(brightness)]
        ["lastNonZeroBrightness" := Int(lastNonZero)]["automation" := Record(AutomationWire(automation))]
    case Environment(temperature, humidity, lux, presence, dataValid, _) =>
      Common(v, texts)["temperatureCelsius" := Number(temperature)]["humidityPercent" := Number(humidity)]
        ["illuminanceLux" := Number(lux)]["presence" := Bool(presence)]["dataValid" := Bool(dataValid)]
    case AirConditioner(brand, power, mode, target, fanSpeed, running, lastFrame) =>
      Common(v, texts)["brand" := Text(brand)]["power" := Bool(power)]["mode" := Text(mode)]
        ["targetTemperatureCelsius" := Int(target)]["fanSpeed" := Text(fanSpeed)]["running" := Bool(running)]
        ["lastAdapterFrame" := Text(FrameText(lastFrame, texts))]
    case DoorLock(locked, jammed, battery, enabled, delay, autoLockAt) =>
      Common(v, texts)["locked" := Bool(locked)]["jammed" := Bool(jammed)]["batteryPercent" := Int(battery)]
        ["autoLockEnabled" := Bool(enabled)]["autoLockDelaySeconds" := Int(delay)]
        ["autoLockAt" := Nullable(autoLockAt)]
    case Plain => Common(v, texts)
    case _ =>
      Common(v, texts)["state" := Record(StateWire(v.body))]["controls" := List(ControlsWire(v.body))]
  }

  // ----- the device the client should get

  function ClientBase(v: D.PublicDevice, texts: Texts): Base {
    Base(v.id, v.name, v.roomId, v.online, v.removable, v.stateVersion, texts.stamp(v.updatedAt))
  }

  function ControlsOn(b: D.Body): seq<Control> {
    match b
    case BathHeater(_, _) => BATH_CONTROLS
    case Humidifier(_, _) => HUMIDIFIER_CONTROLS
    case Curtain(_, _, _) => CURTAIN_CONTROLS
    case _ => []
  }

  function ClientView(v: D.PublicDevice, texts: Texts): DeviceInfo {
    var base := ClientBase(v, texts);
    match v.body
    case Light(power, brightness, lastNonZero, a, _) =>
      LightDevice(base, power, brightness, lastNonZero,
                  Automation(a.enabled, a.thresholdLux, a.noPresenceDelaySeconds, a.manualOverrideUntil))
    case Environment(temperature, humidity, lux, presence, dataValid, _) =>
      EnvironmentDevice(base, temperature, humidity, lux, presence, dataValid)
    case AirConditioner(brand, power, mode, target, fanSpeed, running, lastFrame) =>
      AirConditionerDevice(base, brand, power, mode, target, fanSpeed, running, FrameText(lastFrame, texts))
    case DoorLock(locked, jammed, battery, enabled, delay, autoLockAt) =>
      DoorLockDevice(base, locked, jammed, battery, enabled, delay, autoLockAt)
    case _ =>
      GenericDevice(base, v.kind, if v.category.Some? then Info(v.category.value) else CategoryInfo("", "", "", false),
                    StateWire(v.body), ControlsOn(v.body))
  }

  // ----- when the client can read a view

  predicate CommonReadable(v: D.PublicDevice) {
    v.id != "" && v.name != "" && v.roomId != "" && 0 <= v.stateVersion <= MAX_SAFE_INTEGER
  }

  predicate GenericReadable(v: D.PublicDevice) {
    && ShortOk(v.id, 128) && ShortOk(v.name, 128) && ShortOk(v.roomId, 128) && 0 <= v.stateVersion
    && v.category.Some? && CategoryOk(Info(v.category.value))
  }

  /** The fields whose values the gateway's own rules do not bound to the client's ranges. */
  predicate BodyReadable(b: D.Body) {
    match b
    case Light(_, _, _, automation, _) => NullableOk(automation.manualOverrideUntil)
    case Environment(temperature, humidity, lux, _, _, _) =>
      -50.0 <= temperature <= 80.0 && 0.0 <= humidity <= 100.0 && 0.0 <= lux <= 100_000.0
    case AirConditioner(_, _, mode, target, fanSpeed, _, _) =>
      mode in D.VALID_MODES && 16 <= target <= 30 && fanSpeed in D.VALID_FAN_SPEEDS
    case DoorLock(_, _, battery, _, _, autoLockAt) => 0 <= battery <= 100 && NullableOk(autoLockAt)
    case _ => true
  }

  predicate Typed(b: D.Body) {
    b.Light? || b.Environment? || b.AirConditioner? || b.DoorLock?
  }

  predicate Readable(v: D.PublicDevice) {
    if Typed(v.body) then CommonReadable(v) && BodyReadable(v.body) else GenericReadable(v)
  }

  /** The view of a device of a default driver. */
  predicate OfDefaultDriver(v: D.PublicDevice) {
    Structure.BodyOk(v.body) && Structure.BuiltinFamily(v.kind) == Some(Registry.FamilyOf(v.body))
  }

  // ----- the common fields

  lemma CommonFacts(v: D.PublicDevice, texts: Texts)
    ensures var f := Common(v, texts);
            && Get(f, "id") == Text(v.id) && Get(f, "name") == Text(v.name) && Get(f, "roomId") == Text(v.roomId)
            && Get(f, "type") == Text(v.kind) && Get(f, "online") == Bool(v.online)
            && Get(f, "stateVersion") == Int(v.stateVersion) && Get(f, "removable") == Bool(v.removable)
            && Get(f, "updatedAt") == Text(texts.stamp(v.updatedAt))
            && Get(f, "category") == (if v.category.Some? then Record(CategoryFields(Info(v.category.value))) else Null)
  {
    hide CategoryFields;
  }

  lemma LightKeepsCommon(v: D.PublicDevice, texts: Texts)
    requires v.body.Light?
    ensures SameBase(Wire(v, texts), Common(v, texts))
  {
    hide Common, AutomationWire, Int;
  }

  lemma EnvironmentKeepsCommon(v: D.PublicDevice, texts: Texts)
    requires v.body.Environment?
    ensures SameBase(Wire(v, texts), Common(v, texts))
  {
    hide Common;
  }

  lemma AirConditionerKeepsCommon(v: D.PublicDevice, texts: Texts)
    requires v.body.AirConditioner?
    ensures SameBase(Wire(v, texts), Common(v, texts))
  {
    hide Common, FrameText, Int;
  }

  lemma DoorLockKeepsCommon(v: D.PublicDevice, texts: Texts)
    requires v.body.DoorLock?
    ensures SameBase(Wire(v, texts), Common(v, texts))
  {
    hide Common, Nullable, Int;
    var f := Common(v, texts)["locked" := Bool(v.body.locked)]["jammed" := Bool(v.body.jammed)]
      ["batteryPercent" := Int(v.body.battery)];
    assert SameBase(f, Common(v, texts));
  }

  lemma GenericKeepsCommon(v: D.PublicDevice, texts: Texts)
    requires !Typed(v.body)
    ensures SameBase(Wire(v, texts), Common(v, texts))
    ensures Get(Wire(v, texts), "category") == Get(Common(v, texts), "category")
  {
    hide Common, StateWire, ControlsWire;
  }

  lemma KeepsCommon(v: D.PublicDevice, texts: Texts)
    ensures SameBase(Wire(v, texts), Common(v, texts))
  {
    hide Common, Wire, SameBase;
    match v.body
    case Light(_, _, _, _, _) => LightKeepsCommon(v, texts);
    case Environment(_, _, _, _, _, _) => EnvironmentKeepsCommon(v, texts);
    case AirConditioner(_, _, _, _, _, _, _) => AirConditionerKeepsCommon(v, texts);
    case DoorLock(_, _, _, _, _, _) => DoorLockKeepsCommon(v, texts);
    case _ => GenericKeepsCommon(v, texts);
  }

  lemma CommonParses(v: D.PublicDevice, texts: Texts)
    requires TextsOk(texts)
    ensures ParseBase(Common(v, texts)) == if CommonReadable(v) then Some(ClientBase(v, texts)) else None
    ensures ParseGenericBase(Common(v, texts)) ==
            if ShortOk(v.id, 128) && ShortOk(v.name, 128) && ShortOk(v.roomId, 128) && 0 <= v.stateVersion
            then Some(ClientBase(v, texts)) else None
  {
    CommonFacts(v, texts);
    IntegerAgain(v.stateVersion);
    assert ShortOk(texts.stamp(v.updatedAt), 128);
    hide Common, Get, TextsOk;
  }

  // ----- the families with a parser of their own

  lemma AutomationParses(a: D.Automation)
    ensures var f := AutomationWire(a);
            && Get(f, "enabled") == Bool(a.enabled)
            && Get(f, "illuminanceThresholdLux") == Int(a.thresholdLux)
            && Get(f, "noPresenceDelaySeconds") == Int(a.noPresenceDelaySeconds)
            && Get(f, "manualOverrideUntil") == Nullable(a.manualOverrideUntil)
  {
    hide Nullable, Int;
  }

  lemma NullableParses(fields: Fields, key: string, value: Option<int>)
    requires Get(fields, key) == Nullable(value)
    ensures NullableInteger(fields, key) == if NullableOk(value) then Some(value) else None
  {
    if value.Some? { IntegerAgain(value.value); }
  }

  lemma LightFields(v: D.PublicDevice, texts: Texts)
    requires v.body.Light?
    ensures var f := Wire(v, texts);
            && Get(f, "power") == Bool(v.body.power) && Get(f, "brightness") == Int(v.body.brightness)
            && Get(f, "lastNonZeroBrightness") == Int(v.body.lastNonZero)
            && Get(f, "automation") == Record(AutomationWire(v.body.automation))
  {
    hide Common, AutomationWire, Int;
  }

  lemma LightParses(v: D.PublicDevice, texts: Texts)
    requires TextsOk(texts) && v.body.Light? && Structure.BodyOk(v.body)
    requires ParseBase(Wire(v, texts)) == if CommonReadable(v) then Some(ClientBase(v, texts)) else None
    ensures ParseLight(Wire(v, texts)) == if Readable(v) then Some(ClientView(v, texts)) else None
  {
    hide Get, ParseBase, CommonReadable, Wire, AutomationWire, NullableInteger, TextsOk, NullableOk;
    var a := v.body.automation;
    LightFields(v, texts);
    AutomationParses(a);
    NullableParses(AutomationWire(a), "manualOverrideUntil", a.manualOverrideUntil);
    IntegerAgain(v.body.brightness);
    IntegerAgain(v.body.lastNonZero);
    IntegerAgain(a.thresholdLux);
    IntegerAgain(a.noPresenceDelaySeconds);
  }

  lemma EnvironmentFields(v: D.PublicDevice, texts: Texts)
    requires v.body.Environment?
    ensures var f := Wire(v, texts);
            && Get(f, "temperatureCelsius") == Number(v.body.temperature)
            && Get(f, "humidityPercent") == Number(v.body.humidity) && Get(f, "illuminanceLux") == Number(v.body.lux)
            && Get(f, "presence") == Bool(v.body.presence) && Get(f, "dataValid") == Bool(v.body.dataValid)
  {
    hide Common;
  }

  lemma EnvironmentParses(v: D.PublicDevice, texts: Texts)
    requires v.body.Environment?
    requires ParseBase(Wire(v, texts)) == if CommonReadable(v) then Some(ClientBase(v, texts)) else None
    ensures ParseEnvironment(Wire(v, texts)) == if Readable(v) then Some(ClientView(v, texts)) else None
  {
    hide Get, ParseBase, CommonReadable, Wire;
    EnvironmentFields(v, texts);
  }

  lemma AirConditionerFields(v: D.PublicDevice, texts: Texts)
    requires v.body.AirConditioner?
    ensures var f := Wire(v, texts);
            && Get(f, "brand") == Text(v.body.brand) && Get(f, "power") == Bool(v.body.acPower)
            && Get(f, "mode") == Text(v.body.mode) && Get(f, "targetTemperatureCelsius") == Int(v.body.target)
            && Get(f, "fanSpeed") == Text(v.body.fanSpeed) && Get(f, "running") == Bool(v.body.running)
            && Get(f, "lastAdapterFrame") == Text(FrameText(v.body.lastFrame, texts))
  {
    hide Common, FrameText, Int;
  }

  lemma AirConditionerParses(v: D.PublicDevice, texts: Texts)
    requires v.body.AirConditioner? && Structure.BodyOk(v.body)
    requires ParseBase(Wire(v, texts)) == if CommonReadable(v) then Some(ClientBase(v, texts)) else None
    ensures ParseAirConditioner(Wire(v, texts)) == if Readable(v) then Some(ClientView(v, texts)) else None
  {
    hide Get, ParseBase, CommonReadable, Wire, FrameText;
    AirConditionerFields(v, texts);
    IntegerAgain(v.body.target);
  }

  lemma DoorLockFields(v: D.PublicDevice, texts: Texts)
    requires v.body.DoorLock?
    ensures var f := Wire(v, texts);
            && Get(f, "locked") == Bool(v.body.locked) && Get(f, "jammed") == Bool(v.body.jammed)
            && Get(f, "batteryPercent") == Int(v.body.battery)
            && Get(f, "autoLockEnabled") == Bool(v.body.autoLockEnabled)
            && Get(f, "autoLockDelaySeconds") == Int(v.body.autoLockDelaySeconds)
            && Get(f, "autoLockAt") == Nullable(v.body.autoLockAt)
  {
    hide Common, Nullable, Int;
  }

  lemma DoorLockParses(v: D.PublicDevice, texts: Texts)
    requires v.body.DoorLock? && Structure.BodyOk(v.body)
    requires ParseBase(Wire(v, texts)) == if CommonReadable(v) then Some(ClientBase(v, texts)) else None
    ensures ParseDoorLock(Wire(v, texts)) == if Readable(v) then Some(ClientView(v, texts)) else None
  {
    hide Get, ParseBase, CommonReadable, Wire, NullableInteger, NullableOk, Nullable;
    DoorLockFields(v, texts);
    NullableParses(Wire(v, texts), "autoLockAt", v.body.autoLockAt);
    IntegerAgain(v.body.battery);
    IntegerAgain(v.body.autoLockDelaySeconds);
  }

  // ----- the families drawn from their controls

  lemma {:induction false} SameControls(a: seq<Json>, b: seq<Json>, state: Fields)
    requires |a| == |b|
    requires forall i :: 0 <= i < |a| ==> a[i].Record? && b[i].Record?
    requires forall i :: 0 <= i < |a| ==> ParseControl(a[i].fields, state) == ParseControl(b[i].fields, state)
    ensures ControlsOf(a, state) == ControlsOf(b, state)
    decreases |a|
  {
    hide ParseControl;
    if a != [] {
      SameControls(a[..|a| - 1], b[..|b| - 1], state);
    }
  }

  predicate SameControlKeys(f: Fields, g: Fields) {
    && Get(f, "id") == Get(g, "id") && Get(f, "kind") == Get(g, "kind") && Get(f, "label") == Get(g, "label")
    && Get(f, "action") == Get(g, "action") && Get(f, "stateKey") == Get(g, "stateKey")
    && Get(f, "payloadKey") == Get(g, "payloadKey") && Get(f, "unit") == Get(g, "unit")
    && Get(f, "primary") == Get(g, "primary") && Get(f, "minimum") == Get(g, "minimum")
    && Get(f, "maximum") == Get(g, "maximum") && Get(f, "step") == Get(g, "step")
    && Get(f, "options") == Get(g, "options")
  }

  lemma SameReads(f: Fields, g: Fields)
    requires SameControlKeys(f, g)
    ensures RequireIdentifier(f, "id") == RequireIdentifier(g, "id")
    ensures RequireOneOf(f, "kind", KINDS) == RequireOneOf(g, "kind", KINDS)
    ensures RequireShort(f, "label", 32) == RequireShort(g, "label", 32)
    ensures RequireIdentifier(f, "action") == RequireIdentifier(g, "action")
    ensures OptionalIdentifier(f, "stateKey") == OptionalIdentifier(g, "stateKey")
    ensures OptionalIdentifier(f, "payloadKey") == OptionalIdentifier(g, "payloadKey")
    ensures OptionalShort(f, "unit", 16) == OptionalShort(g, "unit", 16)
    ensures OptionalBool(f, "primary") == OptionalBool(g, "primary")
    ensures ParseRange(f) == ParseRange(g)
  {
    hide Get, Identifier;
  }

  lemma SameKeysReadTheSame(f: Fields, g: Fields, state: Fields)
    requires SameControlKeys(f, g)
    requires OptionalBool(f, "requiresConfirmation") == OptionalBool(g, "requiresConfirmation")
    ensures ParseControl(f, state) == ParseControl(g, state)
  {
    SameReads(f, g);
    hide Get, OptionsIn, StateFits, ParseRange, RequireIdentifier, RequireOneOf, RequireShort, OptionalIdentifier,
         OptionalShort, OptionalBool;
  }

  lemma FalseFlagReadsTheSame(c: Control, state: Fields)
    requires !c.requiresConfirmation
    ensures ParseControl(ControlFields(c)["requiresConfirmation" := Bool(false)], state) ==
            ParseControl(ControlFields(c), state)
  {
    FlagsAgain(c);
    hide ControlFields, ParseControl;
    SameKeysReadTheSame(ControlFields(c)["requiresConfirmation" := Bool(false)], ControlFields(c), state);
  }

  lemma FirstReadsTheSame(raw: Fields, first: Control, rest: seq<Control>, state: Fields)
    requires ParseControl(raw, state) == ParseControl(ControlFields(first), state)
    ensures ControlsOf([Record(raw)] + ControlsJson(rest), state) == ControlsOf(ControlsJson([first] + rest), state)
  {
    hide ControlFields, ParseControl, ControlsOf;
    var sent, plain := [Record(raw)] + ControlsJson(rest), ControlsJson([first] + rest);
    assert plain[0] == Record(ControlFields(first));
    assert forall i :: 0 < i < |plain| ==> sent[i] == ControlsJson(rest)[i - 1] == plain[i];
    SameControls(sent, plain, state);
  }

  /** A flag that is sent as false reads like one that is left out. */
  lemma FalseFlagInList(first: Control, rest: seq<Control>, state: Fields)
    requires !first.requiresConfirmation
    ensures var raw := ControlFields(first)["requiresConfirmation" := Bool(false)];
      ControlsOf([Record(raw)] + ControlsJson(rest), state) == ControlsOf(ControlsJson([first] + rest), state)
  {
    hide ControlFields, ParseControl, ControlsOf;
    FalseFlagReadsTheSame(first, state);
    FirstReadsTheSame(ControlFields(first)["requiresConfirmation" := Bool(false)], first, rest, state);
  }

  lemma PowerTexts()
    ensures Identifier("power") && Identifier("setPower")
  {
  }

  lemma ModeTexts()
    ensures Identifier("mode") && Identifier("setMode")
  {
  }

  lemma HumidityTexts()
    ensures Identifier("targetHumidity") && Identifier("setTargetHumidity") && Identifier("targetHumidityPercent")
  {
  }

  lemma PositionTexts()
    ensures Identifier("position") && Identifier("setPosition") && Identifier("positionPercent")
    ensures Identifier("targetPositionPercent") && Identifier("movement")
  {
  }

  lemma ButtonTexts()
    ensures Identifier("open") && Identifier("stop") && Identifier("close")
  {
  }

  lemma KindTexts()
    ensures Identifier("bathHeater") && Identifier("humidifier") && Identifier("curtain")
  {
  }

  lemma BathOptionsOk(mode: string)
    requires mode in D.BATH_MODES
    ensures OptionsOk(BATH_OPTIONS) && HasValue(BATH_OPTIONS, mode)
  {
    assert BATH_OPTIONS[0].value == "warm" && BATH_OPTIONS[1].value == "ventilate" && BATH_OPTIONS[2].value == "dry";
  }

  lemma BathFits(b: D.Body)
    requires b.BathHeater? && Structure.BodyOk(b)
    ensures StateOk(StateWire(b)) && ControlsOk(BATH_CONTROLS, StateWire(b))
  {
    PowerTexts();
    ModeTexts();
    BathOptionsOk(b.bathMode);
    hide Identifier, HasValue, OptionsOk;
    assert ControlOk(POWER_TOGGLE, StateWire(b));
    assert ControlOk(BATH_MODE, StateWire(b));
  }

  lemma HumidifierFits(b: D.Body)
    requires b.Humidifier? && Structure.BodyOk(b)
    ensures StateOk(StateWire(b)) && ControlsOk(HUMIDIFIER_CONTROLS, StateWire(b))
  {
    PowerTexts();
    HumidityTexts();
    hide Identifier;
    assert ControlOk(POWER_TOGGLE, StateWire(b));
    assert ControlOk(TARGET_HUMIDITY, StateWire(b));
  }

  lemma ButtonFits(c: Control, state: Fields)
    requires c in CURTAIN_BUTTONS
    ensures ControlOk(c, state)
  {
    ButtonTexts();
    hide Identifier;
  }

  lemma PositionFits(b: D.Body)
    requires b.Curtain? && Structure.BodyOk(b)
    ensures StateOk(StateWire(b)) && ControlOk(POSITION, StateWire(b))
  {
    PositionTexts();
    hide Identifier;
  }

  lemma CurtainFits(b: D.Body)
    requires b.Curtain? && Structure.BodyOk(b)
    ensures StateOk(StateWire(b)) && ControlsOk(CURTAIN_CONTROLS, StateWire(b))
  {
    hide ControlOk, StateOk, StateWire, Structure.BodyOk;
    PositionFits(b);
    forall c <- CURTAIN_BUTTONS ensures ControlOk(c, StateWire(b)) { ButtonFits(c, StateWire(b)); }
  }

  lemma GenericFields(v: D.PublicDevice, texts: Texts)
    requires !Typed(v.body) && !v.body.Plain?
    ensures var f := Wire(v, texts);
            && Get(f, "state") == Record(StateWire(v.body)) && Get(f, "controls") == List(ControlsWire(v.body))
  {
    hide Common, StateWire, ControlsWire;
  }

  /** The controls of a device drawn from them fit its state. */
  lemma ControlsParse(b: D.Body)
    requires !Typed(b) && !b.Plain? && Structure.BodyOk(b)
    ensures StateOk(StateWire(b)) && ControlsOf(ControlsWire(b), StateWire(b)) == Some(ControlsOn(b))
    ensures 1 <= |ControlsWire(b)| <= 32
  {
    hide ControlsOf, ControlsOk, StateOk, StateWire, ControlFields;
    match b
    case BathHeater(_, _) =>
      BathFits(b);
      ControlsAgain(BATH_CONTROLS, StateWire(b));
    case Humidifier(_, _) =>
      HumidifierFits(b);
      ControlsAgain(HUMIDIFIER_CONTROLS, StateWire(b));
    case Curtain(_, _, _) =>
      CurtainFits(b);
      ControlsAgain(CURTAIN_CONTROLS, StateWire(b));
      FalseFlagInList(POSITION, CURTAIN_BUTTONS, StateWire(b));
  }

  lemma CategoryParses(c: CategoryInfo)
    ensures ParseCategory(CategoryFields(c)) == if CategoryOk(c) then Some(c) else None
  {
    hide Identifier;
  }

  lemma GenericParses(v: D.PublicDevice, texts: Texts)
    requires !Typed(v.body) && !v.body.Plain? && Structure.BodyOk(v.body)
    requires ParseGenericBase(Wire(v, texts)) ==
             if ShortOk(v.id, 128) && ShortOk(v.name, 128) && ShortOk(v.roomId, 128) && 0 <= v.stateVersion
             then Some(ClientBase(v, texts)) else None
    requires RequireIdentifier(Wire(v, texts), "type") == Some(v.kind)
    requires Get(Wire(v, texts), "category") == Get(Common(v, texts), "category")
    ensures ParseGeneric(Wire(v, texts)) == if Readable(v) then Some(ClientView(v, texts)) else None
  {
    CommonFacts(v, texts);
    GenericFields(v, texts);
    ControlsParse(v.body);
    if v.category.Some? {
      CategoryParses(Info(v.category.value));
    }
    hide Get, ParseGenericBase, RequireIdentifier, Wire, Common, StateWire, StateOk, ControlsOf, ControlsWire,
         ControlsOn, ParseCategory, CategoryOk, CategoryFields, ShortOk, Info;
  }

  /** The type that is sent names the family. */
  lemma TypeParses(v: D.PublicDevice, texts: Texts)
    requires OfDefaultDriver(v)
    ensures RequireText(Wire(v, texts), "type") == Some(v.kind)
    ensures !Typed(v.body) ==> RequireIdentifier(Wire(v, texts), "type") == Some(v.kind)
  {
    KeepsCommon(v, texts);
    CommonFacts(v, texts);
    KindTexts();
    hide Common, Wire, Identifier, Structure.BodyOk;
    assert v.kind != "";
    if !Typed(v.body) {
      assert v.kind == "bathHeater" || v.kind == "humidifier" || v.kind == "curtain";
    }
  }

  lemma KindOfFamily(v: D.PublicDevice)
    requires OfDefaultDriver(v)
    ensures v.body.Light? ==> v.kind == "light"
    ensures v.body.Environment? ==> v.kind == "environment"
    ensures v.body.AirConditioner? ==> v.kind == "airConditioner"
    ensures v.body.DoorLock? ==> v.kind == "doorLock"
    ensures v.kind in BUILTIN_TYPES <==> Typed(v.body)
    ensures !v.body.Plain?
  {
    hide Structure.BodyOk;
  }

  lemma ParserOf(raw: Fields, kind: string)
    requires RequireText(raw, "type") == Some(kind)
    ensures kind == "light" ==> ParseDevice(raw) == ParseLight(raw)
    ensures kind == "environment" ==> ParseDevice(raw) == ParseEnvironment(raw)
    ensures kind == "airConditioner" ==> ParseDevice(raw) == ParseAirConditioner(raw)
    ensures kind == "doorLock" ==> ParseDevice(raw) == ParseDoorLock(raw)
    ensures kind !in BUILTIN_TYPES ==> ParseDevice(raw) == ParseGeneric(raw)
  {
    hide RequireText, ParseLight, ParseEnvironment, ParseAirConditioner, ParseDoorLock, ParseGeneric;
  }

  /**
   * The client reads a view exactly when its fields are in the client's ranges, and then gets the
   * gateway's fields back.
   */
  lemma ViewParses(v: D.PublicDevice, texts: Texts)
    requires TextsOk(texts) && OfDefaultDriver(v)
    ensures ParseDevice(Wire(v, texts)) == if Readable(v) then Some(ClientView(v, texts)) else None
  {
    hide Wire, Common, SameBase, ParseBase, ParseGenericBase, RequireText, RequireIdentifier, ParseLight,
         ParseEnvironment, ParseAirConditioner, ParseDoorLock, ParseGeneric, ParseDevice, CommonReadable, ClientBase,
         ClientView, Readable, TextsOk, Structure.BodyOk, Structure.BuiltinFamily, ShortOk;
    TypeParses(v, texts);
    KindOfFamily(v);
    ParserOf(Wire(v, texts), v.kind);
    KeepsCommon(v, texts);
    CommonParses(v, texts);
    SameBaseParses(Wire(v, texts), Common(v, texts));
    match v.body
    case Light(_, _, _, _, _) => LightParses(v, texts);
    case Environment(_, _, _, _, _, _) => EnvironmentParses(v, texts);
    case AirConditioner(_, _, _, _, _, _, _) => AirConditionerParses(v, texts);
    case DoorLock(_, _, _, _, _, _) => DoorLockParses(v, texts);
    case _ =>
      GenericKeepsCommon(v, texts);
      GenericParses(v, texts);
  }
}
