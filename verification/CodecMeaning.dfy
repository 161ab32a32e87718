/**
 * Which records the device parser reads as which devices, told from the fields of the record
 * alone: the key of each field, its type, its range and what a missing field stands for.
 */
module CodecMeaning {
  import opened Wrappers
  import opened DeviceCodec
  import opened CodecLaws
  import opened DeviceParser

  // ----- one field

  /** A missing field and null are the same to the parser. */
  predicate Absent(raw: Fields, key: string) {
    key in raw ==> raw[key] == Null
  }

  predicate Holds(raw: Fields, key: string, value: Json) {
    key in raw && raw[key] == value
  }

  predicate Flagged(raw: Fields, key: string, flag: bool) {
    Holds(raw, key, Bool(flag)) || (Absent(raw, key) && !flag)
  }

  predicate Texted(raw: Fields, key: string, text: string) {
    Holds(raw, key, Text(text)) || (Absent(raw, key) && text == "")
  }

  predicate Timed(raw: Fields, key: string, at: Option<int>) {
    if at.Some? then at.value >= 0 && Holds(raw, key, Number(at.value as real)) else Absent(raw, key)
  }

  predicate Letter(c: char) {
    'a' <= c <= 'z' || 'A' <= c <= 'Z'
  }

  /** A letter, then at most 63 letters, digits, dots, underscores and hyphens. */
  predicate Named(s: string) {
    && 1 <= |s| <= 64 && Letter(s[0])
    && forall i :: 0 <= i < |s| ==> Letter(s[i]) || '0' <= s[i] <= '9' || s[i] in {'.', '_', '-'}
  }

  predicate Sized(s: string, limit: nat) {
    1 <= |s| <= limit
  }

  // ----- the built-in families

  ghost predicate Describes(raw: Fields, d: DeviceInfo) {
    match d
    case LightDevice(base, power, brightness, lastNonZero, automation) =>
      DescribesBase(raw, base, "light") && DescribesLight(raw, power, brightness, lastNonZero, automation)
    case EnvironmentDevice(base, temperature, humidity, lux, presence, dataValid) =>
      && DescribesBase(raw, base, "environment")
      && Holds(raw, "temperatureCelsius", Number(temperature)) && -50.0 <= temperature <= 80.0
      && Holds(raw, "humidityPercent", Number(humidity)) && 0.0 <= humidity <= 100.0
      && Holds(raw, "illuminanceLux", Number(lux)) && 0.0 <= lux <= 100_000.0
      && Holds(raw, "presence", Bool(presence)) && Holds(raw, "dataValid", Bool(dataValid))
    case AirConditionerDevice(base, brand, power, mode, target, fanSpeed, running, lastFrame) =>
      && DescribesBase(raw, base, "airConditioner")
      && Holds(raw, "brand", Text(brand)) && brand in {"generic", "haierSim", "greeSim", "mideaSim"}
      && Holds(raw, "power", Bool(power))
      && Holds(raw, "mode", Text(mode)) && mode in {"auto", "cool", "heat", "dry", "fan"}
      && Holds(raw, "targetTemperatureCelsius", Number(target as real)) && 16 <= target <= 30
      && Holds(raw, "fanSpeed", Text(fanSpeed)) && fanSpeed in {"auto", "low", "medium", "high"}
      && Holds(raw, "running", Bool(running)) && Texted(raw, "lastAdapterFrame", lastFrame)
    case DoorLockDevice(base, locked, jammed, battery, enabled, delay, autoLockAt) =>
      && DescribesBase(raw, base, "doorLock")
      && Holds(raw, "locked", Bool(locked)) && Holds(raw, "jammed", Bool(jammed))
      && Holds(raw, "batteryPercent", Number(battery as real)) && 0 <= battery <= 100
      && Holds(raw, "autoLockEnabled", Bool(enabled))
      && Holds(raw, "autoLockDelaySeconds", Number(delay as real)) && 5 <= delay <= 60
      && Timed(raw, "autoLockAt", autoLockAt)
    case GenericDevice(base, kind, category, state, controls) =>
      && DescribesGenericBase(raw, base, kind)
      && (exists c :: Holds(raw, "category", Record(c)) && DescribesCategory(c, category))
      && Holds(raw, "state", Record(state)) && Stateful(state)
      && (exists items :: Holds(raw, "controls", List(items)) && 1 <= |items| <= 32
                          && DescribesControls(items, controls, state))
  }

  ghost predicate DescribesBase(raw: Fields, base: Base, kind: string) {
    && Holds(raw, "id", Text(base.id)) && base.id != ""
    && Holds(raw, "name", Text(base.name)) && base.name != ""
    && Holds(raw, "roomId", Text(base.roomId)) && base.roomId != ""
    && Holds(raw, "type", Text(kind))
    && Holds(raw, "online", Bool(base.online)) && Flagged(raw, "removable", base.removable)
    && Holds(raw, "stateVersion", Number(base.stateVersion as real))
    && 0 <= base.stateVersion <= 9_007_199_254_740_991
    && Holds(raw, "updatedAt", Text(base.updatedAt)) && base.updatedAt != ""
  }

  ghost predicate DescribesLight(raw: Fields, power: bool, brightness: int, lastNonZero: int, automation: Automation) {
    && Holds(raw, "power", Bool(power))
    && Holds(raw, "brightness", Number(brightness as real)) && 0 <= brightness <= 100
    && Holds(raw, "lastNonZeroBrightness", Number(lastNonZero as real)) && 1 <= lastNonZero <= 100
    && exists a :: Holds(raw, "automation", Record(a)) && DescribesAutomation(a, automation)
  }

  ghost predicate DescribesAutomation(raw: Fields, a: Automation) {
    && Holds(raw, "enabled", Bool(a.enabled))
    && Holds(raw, "illuminanceThresholdLux", Number(a.thresholdLux as real)) && 10 <= a.thresholdLux <= 500
    && Holds(raw, "noPresenceDelaySeconds", Number(a.noPresenceDelaySeconds as real))
    && 5 <= a.noPresenceDelaySeconds <= 600
    && Timed(raw, "manualOverrideUntil", a.manualOverrideUntil)
  }

  // ----- generic devices

  ghost predicate DescribesGenericBase(raw: Fields, base: Base, kind: string) {
    && Holds(raw, "id", Text(base.id)) && Sized(base.id, 128)
    && Holds(raw, "name", Text(base.name)) && Sized(base.name, 128)
    && Holds(raw, "roomId", Text(base.roomId)) && Sized(base.roomId, 128)
    && Holds(raw, "type", Text(kind)) && Named(kind)
    && kind !in {"light", "environment", "airConditioner", "doorLock"}
    && Holds(raw, "online", Bool(base.online)) && Flagged(raw, "removable", base.removable)
    && Holds(raw, "stateVersion", Number(base.stateVersion as real)) && 0 <= base.stateVersion
    && Holds(raw, "updatedAt", Text(base.updatedAt)) && Sized(base.updatedAt, 128)
  }

  ghost predicate DescribesCategory(raw: Fields, c: CategoryInfo) {
    && Holds(raw, "id", Text(c.id)) && Named(c.id)
    && Holds(raw, "title", Text(c.title)) && Sized(c.title, 32)
    && Holds(raw, "icon", Text(c.icon)) && Sized(c.icon, 8)
    && Holds(raw, "homeOnly", Bool(c.homeOnly))
  }

  /** At most 32 fields, each null, a flag, a finite number or a text of at most 256 letters. */
  predicate Stateful(state: Fields) {
    && |state| <= 32
    && forall k <- state ::
         Named(k) && match state[k] case Null => true case Bool(_) => true case Number(_) => true
                                    case Text(s) => |s| <= 256 case _ => false
  }

  ghost predicate DescribesOption(raw: Json, o: ControlOption) {
    && raw.Record?
    && Holds(raw.fields, "value", Text(o.value)) && Sized(o.value, 64)
    && Holds(raw.fields, "label", Text(o.caption)) && Sized(o.caption, 32)
  }

  ghost predicate DescribesOptions(items: seq<Json>, options: seq<ControlOption>) {
    && |items| == |options|
    && (forall i :: 0 <= i < |items| ==> DescribesOption(items[i], options[i]))
    && (forall i, j :: 0 <= i < j < |options| ==> options[i].value != options[j].value)
  }

  ghost predicate DescribesControls(items: seq<Json>, controls: seq<Control>, state: Fields) {
    && |items| == |controls|
    && (forall i :: 0 <= i < |items| ==> DescribesItem(items[i], controls[i], state))
    && (forall i, j :: 0 <= i < j < |controls| ==> controls[i].id != controls[j].id)
  }

  ghost predicate DescribesItem(raw: Json, c: Control, state: Fields) {
    raw.Record? && DescribesControl(raw.fields, c) && Shows(c, state)
  }

  ghost predicate DescribesControl(raw: Fields, c: Control) {
    && Holds(raw, "id", Text(c.id)) && Named(c.id)
    && Holds(raw, "kind", Text(c.kind)) && c.kind in {"button", "toggle", "slider", "enum"}
    && Holds(raw, "label", Text(c.caption)) && Sized(c.caption, 32)
    && Holds(raw, "action", Text(c.action)) && Named(c.action)
    && Texted(raw, "stateKey", c.stateKey) && (Absent(raw, "stateKey") || Named(c.stateKey))
    && Texted(raw, "payloadKey", c.payloadKey) && (Absent(raw, "payloadKey") || Named(c.payloadKey))
    && Texted(raw, "unit", c.unit) && |c.unit| <= 16
    && Flagged(raw, "primary", c.primary) && Flagged(raw, "requiresConfirmation", c.requiresConfirmation)
    && DescribesRange(raw, c) && DescribesChoice(raw, c)
  }

  ghost predicate DescribesRange(raw: Fields, c: Control) {
    if c.kind == "slider" then
      && Holds(raw, "minimum", Number(c.minimum)) && Holds(raw, "maximum", Number(c.maximum))
      && Holds(raw, "step", Number(c.step))
      && c.minimum < c.maximum && 0.0 < c.step <= c.maximum - c.minimum
    else c.minimum == 0.0 && c.maximum == 0.0 && c.step == 1.0
  }

  ghost predicate DescribesChoice(raw: Fields, c: Control) {
    if c.kind == "enum"
    then exists items :: Holds(raw, "options", List(items)) && 1 <= |items| <= 20 && DescribesOptions(items, c.options)
    else c.options == []
  }

  /** The state has a value the control can show; a button shows none. */
  predicate Shows(c: Control, state: Fields) {
    c.kind == "button"
    || (c.stateKey != "" && c.payloadKey != "" && c.stateKey in state
        && match state[c.stateKey]
           case Bool(_) => c.kind !in {"slider", "enum"}
           case Number(r) => c.kind !in {"toggle", "enum"} && (c.kind == "slider" ==> c.minimum <= r <= c.maximum)
           case Text(s) =>
             c.kind !in {"toggle", "slider"} && (c.kind == "enum" ==> exists o <- c.options :: o.value == s)
           case Null => false
           case _ => c.kind !in {"toggle", "slider", "enum"})
  }

  // ----- the readers of one field

  lemma TextRead(raw: Fields, key: string, s: string)
    ensures RequireText(raw, key) == Some(s) <==> Holds(raw, key, Text(s)) && s != ""
  {
  }

  lemma ShortRead(raw: Fields, key: string, limit: nat, s: string)
    ensures RequireShort(raw, key, limit) == Some(s) <==> Holds(raw, key, Text(s)) && Sized(s, limit)
  {
  }

  lemma TextOrNoneRead(raw: Fields, key: string, s: string)
    ensures OptionalText(raw, key) == Some(s) <==> Texted(raw, key, s)
  {
  }

  lemma ShortOrNoneRead(raw: Fields, key: string, limit: nat, s: string)
    ensures OptionalShort(raw, key, limit) == Some(s) <==> Texted(raw, key, s) && |s| <= limit
  {
  }

  lemma BoolRead(raw: Fields, key: string, b: bool)
    ensures RequireBool(raw, key) == Some(b) <==> Holds(raw, key, Bool(b))
    ensures OptionalBool(raw, key) == Some(b) <==> Flagged(raw, key, b)
  {
  }

  lemma RealRead(raw: Fields, key: string, lo: int, hi: int, r: real)
    ensures RequireReal(raw, key, lo, hi) == Some(r)
            <==> Holds(raw, key, Number(r)) && lo as real <= r <= hi as real
  {
  }

  lemma NumberRead(raw: Fields, key: string, r: real)
    ensures RequireNumber(raw, key) == Some(r) <==> Holds(raw, key, Number(r))
  {
  }

  lemma IntegerRead(raw: Fields, key: string, lo: int, hi: int, i: int)
    ensures RequireInteger(raw, key, lo, hi) == Some(i) <==> Holds(raw, key, Number(i as real)) && lo <= i <= hi
  {
    assert (i as real).Floor == i;
  }

  lemma MomentRead(raw: Fields, key: string, at: Option<int>)
    ensures NullableInteger(raw, key) == Some(at) <==> Timed(raw, key, at)
  {
    if at.Some? {
      assert (at.value as real).Floor == at.value;
    }
  }

  lemma RecordRead(raw: Fields, key: string, fields: Fields)
    ensures RequireRecord(raw, key) == Some(fields) <==> Holds(raw, key, Record(fields))
  {
  }

  lemma ChoiceRead(raw: Fields, key: string, allowed: set<string>, s: string)
    requires "" !in allowed
    ensures RequireOneOf(raw, key, allowed) == Some(s) <==> Holds(raw, key, Text(s)) && s in allowed
  {
  }

  lemma IdentifierMeans(s: string)
    ensures Identifier(s) <==> Named(s)
  {
    assert forall i :: 0 <= i < |s| ==> s[i] in s;
  }

  lemma IdentifierRead(raw: Fields, key: string, s: string)
    ensures RequireIdentifier(raw, key) == Some(s) <==> Holds(raw, key, Text(s)) && Named(s)
    ensures OptionalIdentifier(raw, key) == Some(s)
            <==> Texted(raw, key, s) && (Absent(raw, key) || Named(s))
  {
    hide Identifier, Named;
    IdentifierMeans(s);
    if Get(raw, key).Text? {
      IdentifierMeans(Get(raw, key).s);
    }
  }

  // ----- whole records

  lemma BaseRead(raw: Fields, base: Base, kind: string)
    requires RequireText(raw, "type") == Some(kind)
    ensures ParseBase(raw) == Some(base) <==> DescribesBase(raw, base, kind)
  {
    hide RequireText, RequireBool, OptionalBool, RequireInteger, Holds, Flagged;
    TextRead(raw, "id", base.id);
    TextRead(raw, "name", base.name);
    TextRead(raw, "roomId", base.roomId);
    TextRead(raw, "type", kind);
    BoolRead(raw, "online", base.online);
    BoolRead(raw, "removable", base.removable);
    IntegerRead(raw, "stateVersion", 0, MAX_SAFE_INTEGER, base.stateVersion);
    TextRead(raw, "updatedAt", base.updatedAt);
  }

  lemma AutomationRead(raw: Fields, a: Automation)
    ensures DescribesAutomation(raw, a)
            <==> RequireBool(raw, "enabled") == Some(a.enabled)
                 && RequireInteger(raw, "illuminanceThresholdLux", 10, 500) == Some(a.thresholdLux)
                 && RequireInteger(raw, "noPresenceDelaySeconds", 5, 600) == Some(a.noPresenceDelaySeconds)
                 && NullableInteger(raw, "manualOverrideUntil") == Some(a.manualOverrideUntil)
  {
    hide RequireBool, RequireInteger, NullableInteger, Holds, Timed;
    BoolRead(raw, "enabled", a.enabled);
    IntegerRead(raw, "illuminanceThresholdLux", 10, 500, a.thresholdLux);
    IntegerRead(raw, "noPresenceDelaySeconds", 5, 600, a.noPresenceDelaySeconds);
    MomentRead(raw, "manualOverrideUntil", a.manualOverrideUntil);
  }

  lemma LightRead(raw: Fields, d: DeviceInfo)
    requires RequireText(raw, "type") == Some("light")
    ensures ParseLight(raw) == Some(d) <==> d.LightDevice? && Describes(raw, d)
  {
    hide ParseBase, DescribesBase, RequireText, RequireBool, RequireInteger, NullableInteger, RequireRecord, Holds,
         DescribesAutomation;
    if d.LightDevice? {
      BaseRead(raw, d.base, "light");
      BoolRead(raw, "power", d.power);
      IntegerRead(raw, "brightness", 0, 100, d.brightness);
      IntegerRead(raw, "lastNonZeroBrightness", 1, 100, d.lastNonZeroBrightness);
      forall a: Fields
        ensures RequireRecord(raw, "automation") == Some(a) <==> Holds(raw, "automation", Record(a))
        ensures DescribesAutomation(a, d.automation)
            <==> RequireBool(a, "enabled") == Some(d.automation.enabled)
                 && RequireInteger(a, "illuminanceThresholdLux", 10, 500) == Some(d.automation.thresholdLux)
                 && RequireInteger(a, "noPresenceDelaySeconds", 5, 600) == Some(d.automation.noPresenceDelaySeconds)
                 && NullableInteger(a, "manualOverrideUntil") == Some(d.automation.manualOverrideUntil)
      {
        RecordRead(raw, "automation", a);
        AutomationRead(a, d.automation);
      }
    }
  }

  lemma EnvironmentRead(raw: Fields, d: DeviceInfo)
    requires RequireText(raw, "type") == Some("environment")
    ensures ParseEnvironment(raw) == Some(d) <==> d.EnvironmentDevice? && Describes(raw, d)
  {
    hide ParseBase, DescribesBase, RequireText, RequireBool, RequireReal, Holds;
    if d.EnvironmentDevice? {
      BaseRead(raw, d.base, "environment");
      RealRead(raw, "temperatureCelsius", -50, 80, d.temperature);
      RealRead(raw, "humidityPercent", 0, 100, d.humidity);
      RealRead(raw, "illuminanceLux", 0, 100_000, d.lux);
      BoolRead(raw, "presence", d.presence);
      BoolRead(raw, "dataValid", d.dataValid);
    }
  }

  lemma AirConditionerRead(raw: Fields, d: DeviceInfo)
    requires RequireText(raw, "type") == Some("airConditioner")
    ensures ParseAirConditioner(raw) == Some(d) <==> d.AirConditionerDevice? && Describes(raw, d)
  {
    hide ParseBase, DescribesBase, RequireText, RequireBool, RequireInteger, RequireOneOf, OptionalText, Holds, Texted;
    if d.AirConditionerDevice? {
      BaseRead(raw, d.base, "airConditioner");
      ChoiceRead(raw, "brand", BRANDS, d.brand);
      BoolRead(raw, "power", d.acPower);
      ChoiceRead(raw, "mode", MODES, d.mode);
      IntegerRead(raw, "targetTemperatureCelsius", 16, 30, d.target);
      ChoiceRead(raw, "fanSpeed", FAN_SPEEDS, d.fanSpeed);
      BoolRead(raw, "running", d.running);
      TextOrNoneRead(raw, "lastAdapterFrame", d.lastFrame);
    }
  }

  lemma DoorLockRead(raw: Fields, d: DeviceInfo)
    requires RequireText(raw, "type") == Some("doorLock")
    ensures ParseDoorLock(raw) == Some(d) <==> d.DoorLockDevice? && Describes(raw, d)
  {
    hide ParseBase, DescribesBase, RequireText, RequireBool, RequireInteger, NullableInteger, Holds, Timed;
    if d.DoorLockDevice? {
      BaseRead(raw, d.base, "doorLock");
      BoolRead(raw, "locked", d.locked);
      BoolRead(raw, "jammed", d.jammed);
      IntegerRead(raw, "batteryPercent", 0, 100, d.battery);
      BoolRead(raw, "autoLockEnabled", d.autoLockEnabled);
      IntegerRead(raw, "autoLockDelaySeconds", 5, 60, d.autoLockDelaySeconds);
      MomentRead(raw, "autoLockAt", d.autoLockAt);
    }
  }

  lemma GenericBaseRead(raw: Fields, base: Base, kind: string)
    requires kind !in {"light", "environment", "airConditioner", "doorLock"}
    ensures (ParseGenericBase(raw) == Some(base) && RequireIdentifier(raw, "type") == Some(kind))
            <==> DescribesGenericBase(raw, base, kind)
  {
    hide RequireShort, RequireBool, OptionalBool, RequireNumber, RequireIdentifier, Holds, Flagged, Named, Sized;
    ShortRead(raw, "id", 128, base.id);
    ShortRead(raw, "name", 128, base.name);
    ShortRead(raw, "roomId", 128, base.roomId);
    BoolRead(raw, "online", base.online);
    BoolRead(raw, "removable", base.removable);
    NumberRead(raw, "stateVersion", base.stateVersion as real);
    assert (base.stateVersion as real).Floor == base.stateVersion;
    ShortRead(raw, "updatedAt", 128, base.updatedAt);
    IdentifierRead(raw, "type", kind);
  }

  lemma CategoryRead(raw: Fields, c: CategoryInfo)
    ensures ParseCategory(raw) == Some(c) <==> DescribesCategory(raw, c)
  {
    hide RequireShort, RequireBool, RequireIdentifier, Holds, Named, Sized;
    IdentifierRead(raw, "id", c.id);
    ShortRead(raw, "title", 32, c.title);
    ShortRead(raw, "icon", 8, c.icon);
    BoolRead(raw, "homeOnly", c.homeOnly);
  }

  lemma StateMeans(state: Fields)
    ensures StateOk(state) <==> Stateful(state)
  {
    hide Identifier, Named;
    forall k <- state ensures Identifier(k) <==> Named(k) {
      IdentifierMeans(k);
    }
  }

  // ----- options

  lemma OptionRead(raw: Json, o: ControlOption)
    ensures ParseOption(raw) == Some(o) <==> DescribesOption(raw, o)
  {
    hide RequireShort, Holds, Sized;
    if raw.Record? {
      ShortRead(raw.fields, "value", 64, o.value);
      ShortRead(raw.fields, "label", 32, o.caption);
    }
  }

  lemma {:induction false} OptionsRead(items: seq<Json>, options: seq<ControlOption>)
    ensures OptionsOf(items) == Some(options) <==> DescribesOptions(items, options)
    decreases |items|
  {
    hide ParseOption, DescribesOption;
    if items != [] {
      var n := |items| - 1;
      var front, last := OptionsOf(items[..n]), ParseOption(items[n]);
      if front.Some? {
        OptionsRead(items[..n], front.value);
      }
      if last.Some? {
        OptionRead(items[n], last.value);
      }
      if |options| == |items| {
        OptionsRead(items[..n], options[..n]);
        OptionRead(items[n], options[n]);
        assert options == options[..n] + [options[n]];
        if DescribesOptions(items, options) {
          assert !HasValue(options[..n], options[n].value);
        }
      }
    }
  }

  // ----- controls

  lemma ShowsMeans(c: Control, state: Fields)
    requires c.kind in {"button", "toggle", "slider", "enum"}
    ensures StateFits(c, state) <==> Shows(c, state)
  {
  }

  lemma RangeRead(raw: Fields, c: Control)
    ensures var range := if c.kind == "slider" then ParseRange(raw) else Some(Range(0.0, 0.0, 1.0));
            range == Some(Range(c.minimum, c.maximum, c.step)) <==> DescribesRange(raw, c)
  {
    hide RequireNumber, Holds;
    NumberRead(raw, "minimum", c.minimum);
    NumberRead(raw, "maximum", c.maximum);
    NumberRead(raw, "step", c.step);
  }

  lemma ChoiceOfRead(raw: Fields, c: Control)
    ensures var options := if c.kind == "enum" then OptionsIn(Get(raw, "options")) else Some([]);
            options == Some(c.options) <==> DescribesChoice(raw, c)
  {
    hide OptionsOf, DescribesOptions;
    var value := Get(raw, "options");
    if value.List? {
      OptionsRead(value.items, c.options);
      assert Holds(raw, "options", List(value.items));
    }
  }

  lemma ControlFieldsRead(raw: Fields, c: Control)
    ensures DescribesControl(raw, c)
            <==> (&& RequireIdentifier(raw, "id") == Some(c.id) && RequireOneOf(raw, "kind", KINDS) == Some(c.kind)
                  && RequireShort(raw, "label", 32) == Some(c.caption)
                  && RequireIdentifier(raw, "action") == Some(c.action)
                  && OptionalIdentifier(raw, "stateKey") == Some(c.stateKey)
                  && OptionalIdentifier(raw, "payloadKey") == Some(c.payloadKey)
                  && OptionalShort(raw, "unit", 16) == Some(c.unit)
                  && OptionalBool(raw, "primary") == Some(c.primary)
                  && OptionalBool(raw, "requiresConfirmation") == Some(c.requiresConfirmation)
                  && DescribesRange(raw, c) && DescribesChoice(raw, c))
  {
    hide RequireShort, OptionalBool, OptionalShort, RequireIdentifier, OptionalIdentifier, RequireOneOf,
         Holds, Flagged, Texted, Named, Sized, Absent, DescribesRange, DescribesChoice;
    IdentifierRead(raw, "id", c.id);
    ChoiceRead(raw, "kind", KINDS, c.kind);
    ShortRead(raw, "label", 32, c.caption);
    IdentifierRead(raw, "action", c.action);
    IdentifierRead(raw, "stateKey", c.stateKey);
    IdentifierRead(raw, "payloadKey", c.payloadKey);
    ShortOrNoneRead(raw, "unit", 16, c.unit);
    BoolRead(raw, "primary", c.primary);
    BoolRead(raw, "requiresConfirmation", c.requiresConfirmation);
  }

  lemma ControlRead(raw: Fields, state: Fields, c: Control)
    ensures ParseControl(raw, state) == Some(c) <==> DescribesControl(raw, c) && Shows(c, state)
  {
    hide RequireShort, OptionalBool, OptionalShort, RequireIdentifier, OptionalIdentifier, RequireOneOf, ParseRange,
         OptionsIn, StateFits, Shows, DescribesControl, DescribesRange, DescribesChoice;
    ControlFieldsRead(raw, c);
    RangeRead(raw, c);
    ChoiceOfRead(raw, c);
    if RequireOneOf(raw, "kind", KINDS) == Some(c.kind) {
      ChoiceRead(raw, "kind", KINDS, c.kind);
      ShowsMeans(c, state);
    }
  }

  lemma {:induction false} ControlsDescribed(items: seq<Json>, state: Fields)
    requires ControlsOf(items, state).Some?
    ensures DescribesControls(items, ControlsOf(items, state).value, state)
    decreases |items|
  {
    hide ParseControl, DescribesItem;
    if items != [] {
      var n := |items| - 1;
      ControlsDescribed(items[..n], state);
      ItemRead(items[n], state, ParseControl(items[n].fields, state).value);
    }
  }

  lemma {:induction false} DescribedControls(items: seq<Json>, state: Fields, controls: seq<Control>)
    requires DescribesControls(items, controls, state)
    ensures ControlsOf(items, state) == Some(controls)
    decreases |items|
  {
    hide ParseControl, DescribesItem;
    if items != [] {
      var n := |items| - 1;
      DescribedControls(items[..n], state, controls[..n]);
      ItemRead(items[n], state, controls[n]);
      assert controls == controls[..n] + [controls[n]];
      assert !HasId(controls[..n], controls[n].id);
    }
  }

  lemma ControlsRead(items: seq<Json>, state: Fields, controls: seq<Control>)
    ensures ControlsOf(items, state) == Some(controls) <==> DescribesControls(items, controls, state)
  {
    hide ControlsOf, DescribesControls;
    if ControlsOf(items, state).Some? {
      ControlsDescribed(items, state);
    }
    if DescribesControls(items, controls, state) {
      DescribedControls(items, state, controls);
    }
  }

  lemma ItemRead(item: Json, state: Fields, c: Control)
    ensures DescribesItem(item, c, state) <==> item.Record? && ParseControl(item.fields, state) == Some(c)
  {
    hide ParseControl, DescribesControl, Shows;
    if item.Record? {
      ControlRead(item.fields, state, c);
    }
  }

  lemma GenericRead(raw: Fields, d: DeviceInfo)
    requires RequireText(raw, "type").Some?
    requires RequireText(raw, "type").value !in {"light", "environment", "airConditioner", "doorLock"}
    ensures ParseGeneric(raw) == Some(d) <==> d.GenericDevice? && Describes(raw, d)
  {
    hide ParseGenericBase, RequireIdentifier, ParseCategory, StateOk, ControlsOf, Named,
         DescribesGenericBase, DescribesCategory, Stateful, DescribesControls;
    if d.GenericDevice? {
      var kind := RequireText(raw, "type").value;
      if RequireIdentifier(raw, "type").Some? {
        IdentifierRead(raw, "type", RequireIdentifier(raw, "type").value);
      }
      if d.genericKind == kind {
        GenericBaseRead(raw, d.base, kind);
      } else {
        assert !DescribesGenericBase(raw, d.base, d.genericKind) by { NotThisKind(raw, d.base, d.genericKind); }
      }
      if Get(raw, "category").Record? {
        CategoryRead(raw["category"].fields, d.category);
        assert Holds(raw, "category", Record(raw["category"].fields));
      }
      StateMeans(d.state);
      if Get(raw, "controls").List? {
        ControlsRead(raw["controls"].items, d.state, d.controls);
        assert Holds(raw, "controls", List(raw["controls"].items));
      }
    }
  }

  lemma NotThisKind(raw: Fields, base: Base, kind: string)
    requires RequireText(raw, "type") != Some(kind)
    ensures !DescribesGenericBase(raw, base, kind)
  {
    hide Sized;
  }

  lemma OfItsKind(raw: Fields, d: DeviceInfo)
    requires Describes(raw, d)
    ensures RequireText(raw, "type") == Some(KindOf(d))
    ensures d.GenericDevice? ==> KindOf(d) !in {"light", "environment", "airConditioner", "doorLock"}
  {
    hide Sized, DescribesLight, DescribesControls, DescribesCategory, Timed, Stateful;
  }

  /** A record is read as a device exactly when it describes that device. */
  lemma ReadExactly(raw: Fields, d: DeviceInfo)
    ensures ParseDevice(raw) == Some(d) <==> Describes(raw, d)
  {
    hide ParseLight, ParseEnvironment, ParseAirConditioner, ParseDoorLock, ParseGeneric, Describes, RequireText;
    if Describes(raw, d) {
      OfItsKind(raw, d);
    }
    var kind := RequireText(raw, "type");
    if kind.Some? {
      match kind.value
      case "light" => LightRead(raw, d);
      case "environment" => EnvironmentRead(raw, d);
      case "airConditioner" => AirConditionerRead(raw, d);
      case "doorLock" => DoorLockRead(raw, d);
      case _ => GenericRead(raw, d);
    }
  }

  /** What a serialized device says is the device, but for the removable flag, which is left out. */
  lemma WrittenExactly(d: DeviceInfo)
    ensures Describes(Serialize(d), d.(base := d.base.(removable := false))) <==> DeviceOk(d)
  {
    hide ParseDevice, Serialize, DeviceOk, Describes;
    RoundTripExactly(d);
    ReadExactly(Serialize(d), Kept(d));
  }

  /** An entry throws the snapshot away exactly when it is no record or a built-in one that describes no device. */
  lemma SpoilsExactly(entry: Json)
    ensures Spoils(entry)
            <==> (|| !entry.Record?
                  || ((exists kind :: && kind in {"light", "environment", "airConditioner", "doorLock"}
                                      && Holds(entry.fields, "type", Text(kind)))
                      && forall d :: !Describes(entry.fields, d)))
  {
    hide ParseDevice, Describes;
    if entry.Record? {
      forall d ensures ParseDevice(entry.fields) == Some(d) <==> Describes(entry.fields, d) {
        ReadExactly(entry.fields, d);
      }
      if BuiltinEntry(entry.fields) {
        assert Holds(entry.fields, "type", Text(entry.fields["type"].s));
      }
      if ParseDevice(entry.fields).Some? {
        assert Describes(entry.fields, ParseDevice(entry.fields).value);
      }
    }
  }
}
