/** What the device parser can return, and that serializing and parsing again returns it. */
module CodecLaws {
  import opened Wrappers
  import opened DeviceCodec

  // ----- the well-formed devices

  predicate BaseOk(b: Base) {
    b.id != "" && b.name != "" && b.roomId != "" && b.updatedAt != "" && 0 <= b.stateVersion <= MAX_SAFE_INTEGER
  }

  predicate NullableOk(v: Option<int>) {
    v.Some? ==> v.value >= 0
  }

  predicate ShortOk(s: string, limit: nat) {
    1 <= |s| <= limit
  }

  predicate GenericBaseOk(b: Base) {
    ShortOk(b.id, 128) && ShortOk(b.name, 128) && ShortOk(b.roomId, 128) && ShortOk(b.updatedAt, 128)
    && b.stateVersion >= 0
  }

  predicate CategoryOk(c: CategoryInfo) {
    Identifier(c.id) && ShortOk(c.title, 32) && ShortOk(c.icon, 8)
  }

  predicate OptionsOk(options: seq<ControlOption>) {
    && (forall o <- options :: ShortOk(o.value, 64) && ShortOk(o.caption, 32))
    && (forall i, j :: 0 <= i < j < |options| ==> options[i].value != options[j].value)
  }

  predicate ControlOk(c: Control, state: Fields) {
    && Identifier(c.id) && c.kind in KINDS && ShortOk(c.caption, 32) && Identifier(c.action)
    && (c.stateKey == "" || Identifier(c.stateKey)) && (c.payloadKey == "" || Identifier(c.payloadKey))
    && |c.unit| <= 16
    && (if c.kind == "slider" then c.minimum < c.maximum && 0.0 < c.step <= c.maximum - c.minimum
        else c.minimum == 0.0 && c.maximum == 0.0 && c.step == 1.0)
    && (if c.kind == "enum" then 1 <= |c.options| <= 20 && OptionsOk(c.options) else c.options == [])
    && StateFits(c, state)
  }

  predicate ControlsOk(controls: seq<Control>, state: Fields) {
    && (forall c <- controls :: ControlOk(c, state))
    && (forall i, j :: 0 <= i < j < |controls| ==> controls[i].id != controls[j].id)
  }

  predicate DeviceOk(d: DeviceInfo) {
    match d
    case LightDevice(base, _, brightness, lastNonZero, automation) =>
      && BaseOk(base) && 0 <= brightness <= 100 && 1 <= lastNonZero <= 100
      && 10 <= automation.thresholdLux <= 500 && 5 <= automation.noPresenceDelaySeconds <= 600
      && NullableOk(automation.manualOverrideUntil)
    case EnvironmentDevice(base, temperature, humidity, lux, _, _) =>
      && BaseOk(base) && -50.0 <= temperature <= 80.0 && 0.0 <= humidity <= 100.0 && 0.0 <= lux <= 100_000.0
    case AirConditionerDevice(base, brand, _, mode, target, fanSpeed, _, _) =>
      BaseOk(base) && brand in BRANDS && mode in MODES && 16 <= target <= 30 && fanSpeed in FAN_SPEEDS
    case DoorLockDevice(base, _, _, battery, _, delay, autoLockAt) =>
      BaseOk(base) && 0 <= battery <= 100 && 5 <= delay <= 60 && NullableOk(autoLockAt)
    case GenericDevice(base, kind, category, state, controls) =>
      && GenericBaseOk(base) && Identifier(kind) && kind !in BUILTIN_TYPES && CategoryOk(category)
      && StateOk(state) && 1 <= |controls| <= 32 && ControlsOk(controls, state)
  }

  // ----- serializing and parsing again: the fields every device has

  /** The serializers leave the flag out. */
  function Kept(d: DeviceInfo): DeviceInfo {
    d.(base := d.base.(removable := false))
  }

  lemma IntegerAgain(i: int)
    ensures (i as real).Floor == i && Whole(i as real)
  {
  }

  predicate SameBase(a: Fields, b: Fields) {
    && Get(a, "id") == Get(b, "id") && Get(a, "name") == Get(b, "name") && Get(a, "roomId") == Get(b, "roomId")
    && Get(a, "type") == Get(b, "type") && Get(a, "online") == Get(b, "online")
    && Get(a, "removable") == Get(b, "removable") && Get(a, "stateVersion") == Get(b, "stateVersion")
    && Get(a, "updatedAt") == Get(b, "updatedAt")
  }

  lemma SameBaseParses(a: Fields, b: Fields)
    requires SameBase(a, b)
    ensures ParseBase(a) == ParseBase(b) && ParseGenericBase(a) == ParseGenericBase(b)
    ensures RequireText(a, "type") == RequireText(b, "type")
    ensures RequireIdentifier(a, "type") == RequireIdentifier(b, "type")
  {
    hide Get, Identifier;
  }

  lemma BaseAgain(b: Base, kind: string)
    ensures BaseOk(b) ==> ParseBase(BaseFields(b, kind)) == Some(b.(removable := false))
    ensures GenericBaseOk(b) ==> ParseGenericBase(BaseFields(b, kind)) == Some(b.(removable := false))
  {
    IntegerAgain(b.stateVersion);
  }

  lemma TypeAgain(b: Base, kind: string)
    ensures kind != "" ==> RequireText(BaseFields(b, kind), "type") == Some(kind)
    ensures Identifier(kind) ==> RequireIdentifier(BaseFields(b, kind), "type") == Some(kind)
  {
    hide Identifier;
  }

  lemma LightKeepsBase(d: DeviceInfo)
    requires d.LightDevice?
    ensures SameBase(Serialize(d), BaseFields(d.base, "light"))
  {
    hide BaseFields, AutomationFields;
  }

  lemma EnvironmentKeepsBase(d: DeviceInfo)
    requires d.EnvironmentDevice?
    ensures SameBase(Serialize(d), BaseFields(d.base, "environment"))
  {
    hide BaseFields;
  }

  lemma AirConditionerKeepsBase(d: DeviceInfo)
    requires d.AirConditionerDevice?
    ensures SameBase(Serialize(d), BaseFields(d.base, "airConditioner"))
  {
    hide BaseFields;
  }

  lemma DeadlineKeepsBase(fields: Fields, at: Option<int>)
    ensures SameBase(WithInteger(fields, "autoLockAt", at), fields)
  {
  }

  function LockFields(d: DeviceInfo): Fields
    requires d.DoorLockDevice?
  {
    BaseFields(d.base, "doorLock")["locked" := Bool(d.locked)]["jammed" := Bool(d.jammed)]
      ["batteryPercent" := Int(d.battery)]["autoLockEnabled" := Bool(d.autoLockEnabled)]
      ["autoLockDelaySeconds" := Int(d.autoLockDelaySeconds)]
  }

  lemma DoorLockKeepsBase(d: DeviceInfo)
    requires d.DoorLockDevice?
    ensures SameBase(Serialize(d), BaseFields(d.base, "doorLock"))
  {
    hide BaseFields, WithInteger;
    var fields := LockFields(d);
    assert Serialize(d) == WithInteger(fields, "autoLockAt", d.autoLockAt);
    DeadlineKeepsBase(fields, d.autoLockAt);
    assert SameBase(fields, BaseFields(d.base, "doorLock"));
  }

  lemma NoDeadlineInBase(b: Base)
    ensures "autoLockAt" !in BaseFields(b, "doorLock")
  {
  }

  lemma GenericKeepsBase(d: DeviceInfo)
    requires d.GenericDevice?
    ensures SameBase(Serialize(d), BaseFields(d.base, d.genericKind))
  {
    hide BaseFields, CategoryFields, ControlsJson;
  }

  // ----- the fields of each family

  lemma AutomationAgain(a: Automation)
    requires 10 <= a.thresholdLux <= 500 && 5 <= a.noPresenceDelaySeconds <= 600 && NullableOk(a.manualOverrideUntil)
    ensures var f := AutomationFields(a);
            && RequireBool(f, "enabled") == Some(a.enabled)
            && RequireInteger(f, "illuminanceThresholdLux", 10, 500) == Some(a.thresholdLux)
            && RequireInteger(f, "noPresenceDelaySeconds", 5, 600) == Some(a.noPresenceDelaySeconds)
            && NullableInteger(f, "manualOverrideUntil") == Some(a.manualOverrideUntil)
  {
    IntegerAgain(a.thresholdLux);
    IntegerAgain(a.noPresenceDelaySeconds);
    if a.manualOverrideUntil.Some? {
      IntegerAgain(a.manualOverrideUntil.value);
    }
  }

  lemma LightAgain(d: DeviceInfo)
    requires d.LightDevice? && DeviceOk(d) && ParseBase(Serialize(d)) == Some(Kept(d).base)
    ensures ParseLight(Serialize(d)) == Some(Kept(d))
  {
    hide BaseFields, BaseOk, ParseBase, AutomationFields;
    IntegerAgain(d.brightness);
    IntegerAgain(d.lastNonZeroBrightness);
    AutomationAgain(d.automation);
  }

  lemma EnvironmentAgain(d: DeviceInfo)
    requires d.EnvironmentDevice? && DeviceOk(d) && ParseBase(Serialize(d)) == Some(Kept(d).base)
    ensures ParseEnvironment(Serialize(d)) == Some(Kept(d))
  {
    hide BaseFields, BaseOk, ParseBase;
  }

  lemma AirConditionerAgain(d: DeviceInfo)
    requires d.AirConditionerDevice? && DeviceOk(d) && ParseBase(Serialize(d)) == Some(Kept(d).base)
    ensures ParseAirConditioner(Serialize(d)) == Some(Kept(d))
  {
    hide BaseFields, BaseOk, ParseBase;
    IntegerAgain(d.target);
  }

  lemma DoorLockAgain(d: DeviceInfo)
    requires d.DoorLockDevice? && DeviceOk(d) && ParseBase(Serialize(d)) == Some(Kept(d).base)
    ensures ParseDoorLock(Serialize(d)) == Some(Kept(d))
  {
    hide BaseFields, BaseOk, ParseBase;
    NoDeadlineInBase(d.base);
    IntegerAgain(d.battery);
    IntegerAgain(d.autoLockDelaySeconds);
    if d.autoLockAt.Some? {
      IntegerAgain(d.autoLockAt.value);
    }
  }

  // ----- generic devices

  lemma CategoryAgain(c: CategoryInfo)
    requires CategoryOk(c)
    ensures ParseCategory(CategoryFields(c)) == Some(c)
  {
    hide Identifier;
  }

  lemma OptionAgain(o: ControlOption)
    requires ShortOk(o.value, 64) && ShortOk(o.caption, 32)
    ensures ParseOption(OptionJson(o)) == Some(o)
  {
  }

  lemma {:induction false} OptionsAgain(options: seq<ControlOption>)
    requires OptionsOk(options)
    ensures OptionsOf(OptionsJson(options)) == Some(options)
  {
    hide ParseOption, OptionJson;
    if options != [] {
      var front, last := options[..|options| - 1], options[|options| - 1];
      OptionsAgain(front);
      OptionAgain(last);
      assert OptionsJson(options)[..|options| - 1] == OptionsJson(front);
      assert options == front + [last];
    }
  }

  /** The fields a control has beyond its first four. */
  predicate ExtraKey(key: string) {
    || key == "stateKey" || key == "payloadKey" || key == "minimum" || key == "maximum" || key == "step"
    || key == "options" || key == "unit" || key == "primary" || key == "requiresConfirmation"
  }

  lemma FirstFields(c: Control, key: string)
    requires !ExtraKey(key)
    ensures Get(ControlFields(c), key) == Get(HeadFields(c), key)
  {
    hide OptionsJson, HeadFields;
  }

  lemma HeadAgain(c: Control)
    ensures var f := ControlFields(c);
            && Get(f, "id") == Text(c.id) && Get(f, "kind") == Text(c.kind)
            && Get(f, "label") == Text(c.caption) && Get(f, "action") == Text(c.action)
  {
    hide ControlFields;
    FirstFields(c, "id");
    FirstFields(c, "kind");
    FirstFields(c, "label");
    FirstFields(c, "action");
  }

  lemma KeysAgain(c: Control)
    ensures var f := ControlFields(c);
            && Get(f, "stateKey") == (if c.stateKey == "" then Null else Text(c.stateKey))
            && Get(f, "payloadKey") == (if c.payloadKey == "" then Null else Text(c.payloadKey))
  {
    hide OptionsJson;
  }

  lemma FlagsAgain(c: Control)
    ensures var f := ControlFields(c);
            && Get(f, "unit") == (if c.unit == "" then Null else Text(c.unit))
            && Get(f, "primary") == (if c.primary then Bool(true) else Null)
            && Get(f, "requiresConfirmation") == (if c.requiresConfirmation then Bool(true) else Null)
  {
    hide OptionsJson;
  }

  lemma RangeAgain(c: Control)
    requires c.kind == "slider"
    ensures var f := ControlFields(c);
            && Get(f, "minimum") == Number(c.minimum) && Get(f, "maximum") == Number(c.maximum)
            && Get(f, "step") == Number(c.step)
  {
    hide OptionsJson;
  }

  lemma ListAgain(c: Control)
    requires c.kind == "enum"
    ensures Get(ControlFields(c), "options") == List(OptionsJson(c.options))
  {
    hide OptionsJson;
  }

  lemma SliderAgain(c: Control, state: Fields)
    requires ControlOk(c, state) && c.kind == "slider"
    ensures ParseControl(ControlFields(c), state) == Some(c)
  {
    hide Identifier, StateFits, ControlFields, Get, OptionsIn, OptionsOk;
    HeadAgain(c);
    KeysAgain(c);
    FlagsAgain(c);
    RangeAgain(c);
  }

  lemma EnumAgain(c: Control, state: Fields)
    requires ControlOk(c, state) && c.kind == "enum"
    ensures ParseControl(ControlFields(c), state) == Some(c)
  {
    hide Identifier, StateFits, ControlFields, Get, OptionsOk, OptionsJson, OptionsOf, ParseRange;
    HeadAgain(c);
    KeysAgain(c);
    FlagsAgain(c);
    ListAgain(c);
    OptionsAgain(c.options);
  }

  lemma ControlAgain(c: Control, state: Fields)
    requires ControlOk(c, state)
    ensures ParseControl(ControlFields(c), state) == Some(c)
  {
    hide Identifier, StateFits, ControlFields, Get, OptionsIn, OptionsOk, ParseRange;
    if c.kind == "slider" {
      SliderAgain(c, state);
    } else if c.kind == "enum" {
      EnumAgain(c, state);
    } else {
      HeadAgain(c);
      KeysAgain(c);
      FlagsAgain(c);
    }
  }

  lemma {:induction false} ControlsAgain(controls: seq<Control>, state: Fields)
    requires ControlsOk(controls, state)
    ensures ControlsOf(ControlsJson(controls), state) == Some(controls)
  {
    hide ControlOk, ParseControl, ControlFields;
    if controls != [] {
      var front, last := controls[..|controls| - 1], controls[|controls| - 1];
      ControlsAgain(front, state);
      ControlAgain(last, state);
      assert ControlsJson(controls)[..|controls| - 1] == ControlsJson(front);
      assert controls == front + [last];
    }
  }

  lemma GenericAgain(d: DeviceInfo)
    requires d.GenericDevice? && DeviceOk(d) && ParseGenericBase(Serialize(d)) == Some(Kept(d).base)
    requires RequireIdentifier(Serialize(d), "type") == Some(d.genericKind)
    ensures ParseGeneric(Serialize(d)) == Some(Kept(d))
  {
    hide BaseFields, GenericBaseOk, ParseGenericBase, RequireIdentifier, StateOk, ControlsOk, ControlsOf, ControlsJson,
         CategoryFields, ParseCategory, CategoryOk;
    CategoryAgain(d.category);
    ControlsAgain(d.controls, d.state);
  }

  /** Serializing a well-formed device and parsing the result gives the device, not removable. */
  lemma RoundTrip(d: DeviceInfo)
    requires DeviceOk(d)
    ensures ParseDevice(Serialize(d)) == Some(Kept(d))
  {
    hide Serialize, BaseFields, ParseLight, ParseEnvironment, ParseAirConditioner, ParseDoorLock, ParseGeneric,
         ParseBase, ParseGenericBase, BaseOk, GenericBaseOk, SameBase, RequireText, RequireIdentifier, Identifier;
    var again := BaseFields(d.base, KindOf(d));
    match d {
      case LightDevice(_, _, _, _, _) => LightKeepsBase(d);
      case EnvironmentDevice(_, _, _, _, _, _) => EnvironmentKeepsBase(d);
      case AirConditionerDevice(_, _, _, _, _, _, _, _) => AirConditionerKeepsBase(d);
      case DoorLockDevice(_, _, _, _, _, _, _) => DoorLockKeepsBase(d);
      case GenericDevice(_, _, _, _, _) => GenericKeepsBase(d);
    }
    assert SameBase(Serialize(d), again);
    SameBaseParses(Serialize(d), again);
    BaseAgain(d.base, KindOf(d));
    TypeAgain(d.base, KindOf(d));
    match d {
      case LightDevice(_, _, _, _, _) => LightAgain(d);
      case EnvironmentDevice(_, _, _, _, _, _) => EnvironmentAgain(d);
      case AirConditionerDevice(_, _, _, _, _, _, _, _) => AirConditionerAgain(d);
      case DoorLockDevice(_, _, _, _, _, _, _) => DoorLockAgain(d);
      case GenericDevice(_, kind, _, _, _) =>
        NotEmpty(kind);
        GenericAgain(d);
    }
  }

  lemma NotEmpty(kind: string)
    requires Identifier(kind)
    ensures kind != ""
  {
  }

  // ----- what the parser can return

  lemma {:induction false} OptionsParsedOk(items: seq<Json>)
    requires OptionsOf(items).Some?
    ensures OptionsOk(OptionsOf(items).value) && |OptionsOf(items).value| == |items|
  {
    if items != [] {
      OptionsParsedOk(items[..|items| - 1]);
    }
  }

  lemma ControlParsedOk(raw: Fields, state: Fields)
    requires ParseControl(raw, state).Some?
    ensures ControlOk(ParseControl(raw, state).value, state)
  {
    hide Identifier, StateFits, OptionsOf, OptionsOk;
    var options := Get(raw, "options");
    if options.List? && OptionsOf(options.items).Some? {
      OptionsParsedOk(options.items);
    }
  }

  lemma {:induction false} ControlsParsedOk(items: seq<Json>, state: Fields)
    requires ControlsOf(items, state).Some?
    ensures ControlsOk(ControlsOf(items, state).value, state) && |ControlsOf(items, state).value| == |items|
  {
    hide ParseControl, ControlOk;
    if items != [] {
      ControlsParsedOk(items[..|items| - 1], state);
      ControlParsedOk(items[|items| - 1].fields, state);
    }
  }

  lemma GenericParsedOk(raw: Fields)
    requires ParseGeneric(raw).Some?
    ensures ParseGeneric(raw).value.GenericDevice?
    ensures ParseGeneric(raw).value.genericKind !in BUILTIN_TYPES ==> DeviceOk(ParseGeneric(raw).value)
    ensures RequireText(raw, "type") == Some(ParseGeneric(raw).value.genericKind)
  {
    hide ControlsOf, ControlsOk, StateOk;
    ControlsParsedOk(Get(raw, "controls").items, RequireRecord(raw, "state").value);
  }

  lemma LightParsedOk(raw: Fields)
    requires ParseLight(raw).Some?
    ensures DeviceOk(ParseLight(raw).value)
  {
    hide Get;
  }

  lemma AirConditionerParsedOk(raw: Fields)
    requires ParseAirConditioner(raw).Some?
    ensures DeviceOk(ParseAirConditioner(raw).value)
  {
    hide Get;
  }

  lemma DoorLockParsedOk(raw: Fields)
    requires ParseDoorLock(raw).Some?
    ensures DeviceOk(ParseDoorLock(raw).value)
  {
    hide Get;
  }

  lemma EnvironmentParsedOk(raw: Fields)
    requires ParseEnvironment(raw).Some?
    ensures DeviceOk(ParseEnvironment(raw).value)
  {
    hide Get;
  }

  lemma ParsedOk(raw: Fields)
    requires ParseDevice(raw).Some?
    ensures DeviceOk(ParseDevice(raw).value)
  {
    hide ParseLight, ParseEnvironment, ParseAirConditioner, ParseDoorLock, ParseGeneric, Get, DeviceOk;
    var kind := RequireText(raw, "type").value;
    match kind
    case "light" => LightParsedOk(raw);
    case "environment" => EnvironmentParsedOk(raw);
    case "airConditioner" => AirConditionerParsedOk(raw);
    case "doorLock" => DoorLockParsedOk(raw);
    case _ => GenericParsedOk(raw);
  }

  /** A device comes out of its own serialization exactly when it is well formed. */
  lemma RoundTripExactly(d: DeviceInfo)
    ensures ParseDevice(Serialize(d)) == Some(Kept(d)) <==> DeviceOk(d)
  {
    hide ParseDevice, Serialize;
    if DeviceOk(d) {
      RoundTrip(d);
    }
    if ParseDevice(Serialize(d)) == Some(Kept(d)) {
      ParsedOk(Serialize(d));
      assert DeviceOk(Kept(d)) == DeviceOk(d);
    }
  }

  /** Every device the parser returns survives serializing and parsing. */
  lemma ParsedRoundTrip(raw: Fields)
    requires ParseDevice(raw).Some?
    ensures ParseDevice(Serialize(ParseDevice(raw).value)) == Some(Kept(ParseDevice(raw).value))
  {
    hide ParseDevice, Serialize;
    ParsedOk(raw);
    RoundTrip(ParseDevice(raw).value);
  }
}
