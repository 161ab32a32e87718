/**
 * The client's device parser and serializer.  A parser that throws gives None.  JSON numbers are
 * reals; NotFinite is a number that is infinite or not a number.
 */
module DeviceCodec {
  import opened Wrappers

  datatype Json =
    | Null
    | Bool(b: bool)
    | Number(r: real)
    | NotFinite
    | Text(s: string)
    | List(items: seq<Json>)
    | Record(fields: map<string, Json>)

  type Fields = map<string, Json>

  // ----- devices on the client

  datatype Base = Base(
    id: string, name: string, roomId: string, online: bool, removable: bool, stateVersion: int,
    updatedAt: string)

  datatype Automation = Automation(
    enabled: bool, thresholdLux: int, noPresenceDelaySeconds: int, manualOverrideUntil: Option<int>)

  datatype CategoryInfo = CategoryInfo(id: string, title: string, icon: string, homeOnly: bool)

  datatype ControlOption = ControlOption(value: string, caption: string)

  datatype Control = Control(
    id: string, kind: string, caption: string, action: string, stateKey: string, payloadKey: string,
    minimum: real, maximum: real, step: real, unit: string, options: seq<ControlOption>,
    primary: bool, requiresConfirmation: bool)

  datatype DeviceInfo =
    | LightDevice(base: Base, power: bool, brightness: int, lastNonZeroBrightness: int,
                  automation: Automation)
    | EnvironmentDevice(base: Base, temperature: real, humidity: real, lux: real, presence: bool,
                        dataValid: bool)
    | AirConditionerDevice(base: Base, brand: string, acPower: bool, mode: string, target: int,
                           fanSpeed: string, running: bool, lastFrame: string)
    | DoorLockDevice(base: Base, locked: bool, jammed: bool, battery: int, autoLockEnabled: bool,
                     autoLockDelaySeconds: int, autoLockAt: Option<int>)
    | GenericDevice(base: Base, genericKind: string, category: CategoryInfo, state: Fields,
                    controls: seq<Control>)

  function KindOf(d: DeviceInfo): string {
    match d
    case LightDevice(_, _, _, _, _) => "light"
    case EnvironmentDevice(_, _, _, _, _, _) => "environment"
    case AirConditionerDevice(_, _, _, _, _, _, _, _) => "airConditioner"
    case DoorLockDevice(_, _, _, _, _, _, _) => "doorLock"
    case GenericDevice(_, kind, _, _, _) => kind
  }

  const BUILTIN_TYPES: set<string> := {"light", "environment", "airConditioner", "doorLock"}

  // ----- fields

  function Get(raw: Fields, key: string): Json {
    if key in raw then raw[key] else Null
  }

  function RequireText(raw: Fields, key: string): Option<string> {
    var v := Get(raw, key);
    if v.Text? && v.s != "" then Some(v.s) else None
  }

  function RequireShort(raw: Fields, key: string, limit: nat): Option<string> {
    var v := Get(raw, key);
    if v.Text? && v.s != "" && |v.s| <= limit then Some(v.s) else None
  }

  function OptionalText(raw: Fields, key: string): Option<string> {
    var v := Get(raw, key);
    if v.Null? then Some("") else if v.Text? then Some(v.s) else None
  }

  function OptionalShort(raw: Fields, key: string, limit: nat): Option<string> {
    var v := Get(raw, key);
    if v.Null? then Some("") else if v.Text? && |v.s| <= limit then Some(v.s) else None
  }

  function RequireBool(raw: Fields, key: string): Option<bool> {
    var v := Get(raw, key);
    if v.Bool? then Some(v.b) else None
  }

  function OptionalBool(raw: Fields, key: string): Option<bool> {
    var v := Get(raw, key);
    if v.Null? then Some(false) else if v.Bool? then Some(v.b) else None
  }

  function RequireNumber(raw: Fields, key: string): Option<real> {
    var v := Get(raw, key);
    if v.Number? then Some(v.r) else None
  }

  function RequireReal(raw: Fields, key: string, lo: int, hi: int): Option<real> {
    var v := Get(raw, key);
    if v.Number? && lo as real <= v.r <= hi as real then Some(v.r) else None
  }

  predicate Whole(r: real) {
    r.Floor as real == r
  }

  function RequireInteger(raw: Fields, key: string, lo: int, hi: int): Option<int> {
    var v := Get(raw, key);
    if v.Number? && lo as real <= v.r <= hi as real && Whole(v.r) then Some(v.r.Floor) else None
  }

  function NullableInteger(raw: Fields, key: string): Option<Option<int>> {
    var v := Get(raw, key);
    if v.Null? then Some(None)
    else if v.Number? && Whole(v.r) && v.r >= 0.0 then Some(Some(v.r.Floor))
    else None
  }

  function RequireRecord(raw: Fields, key: string): Option<Fields> {
    var v := Get(raw, key);
    if v.Record? then Some(v.fields) else None
  }

  function RequireOneOf(raw: Fields, key: string, allowed: set<string>): Option<string> {
    var v := Get(raw, key);
    if v.Text? && v.s != "" && v.s in allowed then Some(v.s) else None
  }

  predicate LetterChar(c: char) {
    'a' <= c <= 'z' || 'A' <= c <= 'Z'
  }

  predicate IdentifierChar(c: char) {
    LetterChar(c) || '0' <= c <= '9' || c == '.' || c == '_' || c == '-'
  }

  /** A letter and at most 63 letters, digits, dots, underscores and hyphens. */
  predicate Identifier(s: string) {
    1 <= |s| <= 64 && LetterChar(s[0]) && forall c <- s :: IdentifierChar(c)
  }

  function RequireIdentifier(raw: Fields, key: string): Option<string> {
    var v := Get(raw, key);
    if v.Text? && Identifier(v.s) then Some(v.s) else None
  }

  function OptionalIdentifier(raw: Fields, key: string): Option<string> {
    if Get(raw, key).Null? then Some("") else RequireIdentifier(raw, key)
  }

  // ----- built-in devices

  const MAX_SAFE_INTEGER := 9_007_199_254_740_991

  function ParseBase(raw: Fields): Option<Base> {
    var id :- RequireText(raw, "id");
    var name :- RequireText(raw, "name");
    var roomId :- RequireText(raw, "roomId");
    var online :- RequireBool(raw, "online");
    var removable :- OptionalBool(raw, "removable");
    var stateVersion :- RequireInteger(raw, "stateVersion", 0, MAX_SAFE_INTEGER);
    var updatedAt :- RequireText(raw, "updatedAt");
    Some(Base(id, name, roomId, online, removable, stateVersion, updatedAt))
  }

  function ParseLight(raw: Fields): Option<DeviceInfo> {
    var base :- ParseBase(raw);
    var power :- RequireBool(raw, "power");
    var brightness :- RequireInteger(raw, "brightness", 0, 100);
    var lastNonZero :- RequireInteger(raw, "lastNonZeroBrightness", 1, 100);
    var automation :- RequireRecord(raw, "automation");
    var enabled :- RequireBool(automation, "enabled");
    var threshold :- RequireInteger(automation, "illuminanceThresholdLux", 10, 500);
    var delay :- RequireInteger(automation, "noPresenceDelaySeconds", 5, 600);
    var until :- NullableInteger(automation, "manualOverrideUntil");
    Some(LightDevice(base, power, brightness, lastNonZero, Automation(enabled, threshold, delay, until)))
  }

  function ParseEnvironment(raw: Fields): Option<DeviceInfo> {
    var base :- ParseBase(raw);
    var temperature :- RequireReal(raw, "temperatureCelsius", -50, 80);
    var humidity :- RequireReal(raw, "humidityPercent", 0, 100);
    var lux :- RequireReal(raw, "illuminanceLux", 0, 100_000);
    var presence :- RequireBool(raw, "presence");
    var dataValid :- RequireBool(raw, "dataValid");
    Some(EnvironmentDevice(base, temperature, humidity, lux, presence, dataValid))
  }

  const BRANDS: set<string> := {"generic", "haierSim", "greeSim", "mideaSim"}
  const MODES: set<string> := {"auto", "cool", "heat", "dry", "fan"}
  const FAN_SPEEDS: set<string> := {"auto", "low", "medium", "high"}

  function ParseAirConditioner(raw: Fields): Option<DeviceInfo> {
    var base :- ParseBase(raw);
    var brand :- RequireOneOf(raw, "brand", BRANDS);
    var power :- RequireBool(raw, "power");
    var mode :- RequireOneOf(raw, "mode", MODES);
    var target :- RequireInteger(raw, "targetTemperatureCelsius", 16, 30);
    var fanSpeed :- RequireOneOf(raw, "fanSpeed", FAN_SPEEDS);
    var running :- RequireBool(raw, "running");
    var lastFrame :- OptionalText(raw, "lastAdapterFrame");
    Some(AirConditionerDevice(base, brand, power, mode, target, fanSpeed, running, lastFrame))
  }

  function ParseDoorLock(raw: Fields): Option<DeviceInfo> {
    var base :- ParseBase(raw);
    var locked :- RequireBool(raw, "locked");
    var jammed :- RequireBool(raw, "jammed");
    var battery :- RequireInteger(raw, "batteryPercent", 0, 100);
    var enabled :- RequireBool(raw, "autoLockEnabled");
    var delay :- RequireInteger(raw, "autoLockDelaySeconds", 5, 60);
    var autoLockAt :- NullableInteger(raw, "autoLockAt");
    Some(DoorLockDevice(base, locked, jammed, battery, enabled, delay, autoLockAt))
  }

  // ----- generic devices

  function ParseCategory(raw: Fields): Option<CategoryInfo> {
    var id :- RequireIdentifier(raw, "id");
    var title :- RequireShort(raw, "title", 32);
    var icon :- RequireShort(raw, "icon", 8);
    var homeOnly :- RequireBool(raw, "homeOnly");
    Some(CategoryInfo(id, title, icon, homeOnly))
  }

  predicate HasValue(options: seq<ControlOption>, value: string) {
    exists o <- options :: o.value == value
  }

  function ParseOption(raw: Json): Option<ControlOption> {
    if !raw.Record? then None
    else
      var value :- RequireShort(raw.fields, "value", 64);
      var caption :- RequireShort(raw.fields, "label", 32);
      Some(ControlOption(value, caption))
  }

  /** The options in order; a second option with the same value is an error. */
  function OptionsOf(items: seq<Json>): Option<seq<ControlOption>>
    decreases |items|
  {
    if items == [] then Some([])
    else
      var front :- OptionsOf(items[..|items| - 1]);
      var last :- ParseOption(items[|items| - 1]);
      if HasValue(front, last.value) then None else Some(front + [last])
  }

  function OptionsIn(value: Json): Option<seq<ControlOption>> {
    if value.List? && 1 <= |value.items| <= 20 then OptionsOf(value.items) else None
  }

  const KINDS: set<string> := {"button", "toggle", "slider", "enum"}

  /** validateControlState. */
  predicate StateFits(c: Control, state: Fields) {
    if c.kind == "button" then true
    else if c.stateKey == "" || c.payloadKey == "" then false
    else
      var v := Get(state, c.stateKey);
      && !v.Null?
      && (c.kind == "toggle" ==> v.Bool?)
      && (c.kind == "slider" ==> v.Number? && c.minimum <= v.r <= c.maximum)
      && (c.kind == "enum" ==> v.Text? && HasValue(c.options, v.s))
  }

  datatype Range = Range(minimum: real, maximum: real, step: real)

  function ParseRange(raw: Fields): Option<Range> {
    var minimum :- RequireNumber(raw, "minimum");
    var maximum :- RequireNumber(raw, "maximum");
    var step :- RequireNumber(raw, "step");
    if minimum >= maximum || step <= 0.0 || step > maximum - minimum then None
    else Some(Range(minimum, maximum, step))
  }

  function ParseControl(raw: Fields, state: Fields): Option<Control> {
    var id :- RequireIdentifier(raw, "id");
    var kind :- RequireOneOf(raw, "kind", KINDS);
    var caption :- RequireShort(raw, "label", 32);
    var action :- RequireIdentifier(raw, "action");
    var stateKey :- OptionalIdentifier(raw, "stateKey");
    var payloadKey :- OptionalIdentifier(raw, "payloadKey");
    var unit :- OptionalShort(raw, "unit", 16);
    var primary :- OptionalBool(raw, "primary");
    var confirm :- OptionalBool(raw, "requiresConfirmation");
    var range :- if kind == "slider" then ParseRange(raw) else Some(Range(0.0, 0.0, 1.0));
    var options :- if kind == "enum" then OptionsIn(Get(raw, "options")) else Some([]);
    var control := Control(id, kind, caption, action, stateKey, payloadKey, range.minimum, range.maximum,
                           range.step, unit, options, primary, confirm);
    if StateFits(control, state) then Some(control) else None
  }

  predicate HasId(controls: seq<Control>, id: string) {
    exists c <- controls :: c.id == id
  }

  function ControlsOf(items: seq<Json>, state: Fields): Option<seq<Control>>
    decreases |items|
  {
    if items == [] then Some([])
    else
      var front :- ControlsOf(items[..|items| - 1], state);
      var raw := items[|items| - 1];
      if !raw.Record? then None
      else
        var last :- ParseControl(raw.fields, state);
        if HasId(front, last.id) then None else Some(front + [last])
  }

  predicate Primitive(v: Json) {
    v.Null? || v.Bool? || v.Number? || (v.Text? && |v.s| <= 256)
  }

  predicate StateOk(state: Fields) {
    |state| <= 32 && forall k <- state :: Identifier(k) && Primitive(state[k])
  }

  function ParseGenericBase(raw: Fields): Option<Base> {
    var id :- RequireShort(raw, "id", 128);
    var name :- RequireShort(raw, "name", 128);
    var roomId :- RequireShort(raw, "roomId", 128);
    var online :- RequireBool(raw, "online");
    var removable :- OptionalBool(raw, "removable");
    var version :- RequireNumber(raw, "stateVersion");
    var updatedAt :- RequireShort(raw, "updatedAt", 128);
    if Whole(version) && version >= 0.0
    then Some(Base(id, name, roomId, online, removable, version.Floor, updatedAt)) else None
  }

  function ParseGeneric(raw: Fields): Option<DeviceInfo> {
    var base :- ParseGenericBase(raw);
    var kind :- RequireIdentifier(raw, "type");
    var categoryFields :- RequireRecord(raw, "category");
    var category :- ParseCategory(categoryFields);
    var state :- RequireRecord(raw, "state");
    var controlsValue := Get(raw, "controls");
    if !StateOk(state) || !controlsValue.List? || !(1 <= |controlsValue.items| <= 32) then None
    else
      var controls :- ControlsOf(controlsValue.items, state);
      Some(GenericDevice(base, kind, category, state, controls))
  }

  function ParseDevice(raw: Fields): Option<DeviceInfo> {
    var kind :- RequireText(raw, "type");
    match kind
    case "light" => ParseLight(raw)
    case "environment" => ParseEnvironment(raw)
    case "airConditioner" => ParseAirConditioner(raw)
    case "doorLock" => ParseDoorLock(raw)
    case _ => ParseGeneric(raw)
  }

  // ----- serializing

  function Int(i: int): Json {
    Number(i as real)
  }

  function BaseFields(b: Base, kind: string): Fields {
    map["id" := Text(b.id), "name" := Text(b.name), "roomId" := Text(b.roomId), "type" := Text(kind),
        "online" := Bool(b.online), "stateVersion" := Int(b.stateVersion), "updatedAt" := Text(b.updatedAt)]
  }

  function WithInteger(fields: Fields, key: string, value: Option<int>): Fields {
    if value.Some? then fields[key := Int(value.value)] else fields
  }

  function AutomationFields(a: Automation): Fields {
    WithInteger(map["enabled" := Bool(a.enabled), "illuminanceThresholdLux" := Int(a.thresholdLux),
                    "noPresenceDelaySeconds" := Int(a.noPresenceDelaySeconds)],
                "manualOverrideUntil", a.manualOverrideUntil)
  }

  function OptionJson(o: ControlOption): Json {
    Record(map["value" := Text(o.value), "label" := Text(o.caption)])
  }

  function OptionsJson(options: seq<ControlOption>): (items: seq<Json>)
    ensures |items| == |options|
  {
    seq(|options|, i requires 0 <= i < |options| => OptionJson(options[i]))
  }

  function WithText(fields: Fields, key: string, value: string): Fields {
    if value != "" then fields[key := Text(value)] else fields
  }

  function WithTrue(fields: Fields, key: string, value: bool): Fields {
    if value then fields[key := Bool(true)] else fields
  }

  function HeadFields(c: Control): Fields {
    map["id" := Text(c.id), "kind" := Text(c.kind), "label" := Text(c.caption), "action" := Text(c.action)]
  }

  function KeyedFields(c: Control): Fields {
    WithText(WithText(HeadFields(c), "stateKey", c.stateKey), "payloadKey", c.payloadKey)
  }

  function KindFields(c: Control): Fields {
    if c.kind == "slider"
    then KeyedFields(c)["minimum" := Number(c.minimum)]["maximum" := Number(c.maximum)]["step" := Number(c.step)]
    else if c.kind == "enum" then KeyedFields(c)["options" := List(OptionsJson(c.options))]
    else KeyedFields(c)
  }

  function ControlFields(c: Control): Fields {
    WithTrue(WithTrue(WithText(KindFields(c), "unit", c.unit), "primary", c.primary),
             "requiresConfirmation", c.requiresConfirmation)
  }

  function ControlsJson(controls: seq<Control>): (items: seq<Json>)
    ensures |items| == |controls|
  {
    seq(|controls|, i requires 0 <= i < |controls| => Record(ControlFields(controls[i])))
  }

  function CategoryFields(c: CategoryInfo): Fields {
    map["id" := Text(c.id), "title" := Text(c.title), "icon" := Text(c.icon), "homeOnly" := Bool(c.homeOnly)]
  }

  function Serialize(d: DeviceInfo): Fields {
    match d
    case LightDevice(base, power, brightness, lastNonZero, automation) =>
      BaseFields(base, "light")["power" := Bool(power)]["brightness" := Int(brightness)]
        ["lastNonZeroBrightness" := Int(lastNonZero)]["automation" := Record(AutomationFields(automation))]
    case EnvironmentDevice(base, temperature, humidity, lux, presence, dataValid) =>
      BaseFields(base, "environment")["temperatureCelsius" := Number(temperature)]
        ["humidityPercent" := Number(humidity)]["illuminanceLux" := Number(lux)]
        ["presence" := Bool(presence)]["dataValid" := Bool(dataValid)]
    case AirConditionerDevice(base, brand, power, mode, target, fanSpeed, running, lastFrame) =>
      BaseFields(base, "airConditioner")["brand" := Text(brand)]["power" := Bool(power)]
        ["mode" := Text(mode)]["targetTemperatureCelsius" := Int(target)]["fanSpeed" := Text(fanSpeed)]
        ["running" := Bool(running)]["lastAdapterFrame" := Text(lastFrame)]
    case DoorLockDevice(base, locked, jammed, battery, enabled, delay, autoLockAt) =>
      WithInteger(BaseFields(base, "doorLock")["locked" := Bool(locked)]["jammed" := Bool(jammed)]
        ["batteryPercent" := Int(battery)]["autoLockEnabled" := Bool(enabled)]
        ["autoLockDelaySeconds" := Int(delay)], "autoLockAt", autoLockAt)
    case GenericDevice(base, kind, category, state, controls) =>
      BaseFields(base, kind)["category" := Record(CategoryFields(category))]["state" := Record(state)]
        ["controls" := List(ControlsJson(controls))]
  }
}
