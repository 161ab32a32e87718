/**
 * The client's parsing and serializing loops, proved against the codec's functions, and what a
 * device snapshot yields.
 */
module DeviceParser {
  import opened Wrappers
  import opened DeviceCodec
  import opened CodecLaws

  // ----- generic devices

  method ParseOptions(value: Json) returns (options: Option<seq<ControlOption>>)
    ensures options == OptionsIn(value)
  {
    if !value.List? || |value.items| == 0 || |value.items| > 20 {
      return None;
    }
    var result: seq<ControlOption>, values: seq<string> := [], [];
    for index := 0 to |value.items|
      invariant OptionsOf(value.items[..index]) == Some(result)
      invariant |values| == |result| && forall i :: 0 <= i < |values| ==> values[i] == result[i].value
    {
      assert value.items[..index + 1][..index] == value.items[..index];
      var parsed := ParseOption(value.items[index]);
      if parsed.None? {
        Unparsed(value.items, index);
        return None;
      }
      var option := parsed.value;
      assert option.value in values <==> HasValue(result, option.value);
      if option.value in values {
        Unparsed(value.items, index);
        return None;
      }
      values := values + [option.value];
      result := result + [option];
    }
    assert value.items[..|value.items|] == value.items;
    return Some(result);
  }

  /** Once a prefix of the options has failed, so has the whole list. */
  lemma {:induction false} Unparsed(items: seq<Json>, index: nat)
    requires index < |items| && OptionsOf(items[..index + 1]).None?
    ensures OptionsOf(items).None?
    decreases |items|
  {
    if index + 1 < |items| {
      assert items[..|items| - 1][..index + 1] == items[..index + 1];
      Unparsed(items[..|items| - 1], index);
    } else {
      assert items[..index + 1] == items;
    }
  }

  method ValidateControlState(control: Control, state: Fields) returns (fits: bool)
    ensures fits == StateFits(control, state)
  {
    if control.kind == "button" {
      return true;
    }
    if |control.stateKey| == 0 || |control.payloadKey| == 0 {
      return false;
    }
    var value := Get(state, control.stateKey);
    if value.Null? {
      return false;
    }
    if control.kind == "toggle" && !value.Bool? {
      return false;
    }
    if control.kind == "slider" {
      if !value.Number? || value.r < control.minimum || value.r > control.maximum {
        return false;
      }
    }
    if control.kind == "enum" {
      if !value.Text? {
        return false;
      }
      var found, index := false, 0;
      while index < |control.options|
        invariant 0 <= index <= |control.options|
        invariant found == HasValue(control.options[..index], value.s)
      {
        if control.options[index].value == value.s {
          found := true;
          assert HasValue(control.options[..index + 1], value.s) by {
            assert control.options[..index + 1][index] == control.options[index];
          }
          SomeOption(control.options, index + 1, value.s);
          break;
        }
        assert control.options[..index + 1] == control.options[..index] + [control.options[index]];
        index := index + 1;
      }
      assert index == |control.options| ==> control.options[..index] == control.options;
      if !found {
        return false;
      }
    }
    return true;
  }

  lemma SomeOption(options: seq<ControlOption>, n: nat, value: string)
    requires n <= |options| && HasValue(options[..n], value)
    ensures HasValue(options, value)
  {
  }

  /** The keys of the state are looked at one by one. */
  method ValidateState(state: Fields) returns (ok: bool)
    ensures ok == StateOk(state)
  {
    if |state| > 32 {
      return false;
    }
    var keys := state.Keys;
    while keys != {}
      invariant keys <= state.Keys
      invariant forall k <- state :: k !in keys ==> Identifier(k) && Primitive(state[k])
      decreases keys
    {
      var key :| key in keys;
      if !Identifier(key) {
        return false;
      }
      var value := state[key];
      if !value.Null? && !value.Text? && !value.Number? && !value.NotFinite? && !value.Bool? {
        return false;
      }
      if value.NotFinite? {
        return false;
      }
      if value.Text? && |value.s| > 256 {
        return false;
      }
      keys := keys - {key};
    }
    return true;
  }

  method ParseControls(items: seq<Json>, state: Fields) returns (controls: Option<seq<Control>>)
    ensures controls == ControlsOf(items, state)
  {
    hide ParseControl;
    var result: seq<Control>, ids: seq<string> := [], [];
    for index := 0 to |items|
      invariant ControlsOf(items[..index], state) == Some(result)
      invariant |ids| == |result| && forall i :: 0 <= i < |ids| ==> ids[i] == result[i].id
    {
      assert items[..index + 1][..index] == items[..index];
      var raw := items[index];
      if !raw.Record? {
        NoControls(items, index, state);
        return None;
      }
      var parsed := ParseControl(raw.fields, state);
      if parsed.None? {
        NoControls(items, index, state);
        return None;
      }
      var control := parsed.value;
      assert control.id in ids <==> HasId(result, control.id);
      if control.id in ids {
        NoControls(items, index, state);
        return None;
      }
      ids := ids + [control.id];
      result := result + [control];
    }
    assert items[..|items|] == items;
    return Some(result);
  }

  lemma {:induction false} NoControls(items: seq<Json>, index: nat, state: Fields)
    requires index < |items| && ControlsOf(items[..index + 1], state).None?
    ensures ControlsOf(items, state).None?
    decreases |items|
  {
    hide ParseControl;
    if index + 1 < |items| {
      assert items[..|items| - 1][..index + 1] == items[..index + 1];
      NoControls(items[..|items| - 1], index, state);
    } else {
      assert items[..index + 1] == items;
    }
  }

  method ParseGenericDevice(raw: Fields) returns (device: Option<DeviceInfo>)
    ensures device == ParseGeneric(raw)
  {
    hide ParseGenericBase, RequireIdentifier, RequireRecord, ParseCategory, Get, StateOk, ControlsOf;
    var base :- ParseGenericBase(raw);
    var kind :- RequireIdentifier(raw, "type");
    var categoryFields :- RequireRecord(raw, "category");
    var category :- ParseCategory(categoryFields);
    var state :- RequireRecord(raw, "state");
    var stateOk := ValidateState(state);
    if !stateOk {
      return None;
    }
    var controlsValue := Get(raw, "controls");
    if !controlsValue.List? || |controlsValue.items| == 0 || |controlsValue.items| > 32 {
      return None;
    }
    var controls := ParseControls(controlsValue.items, state);
    if controls.None? {
      return None;
    }
    return Some(GenericDevice(base, kind, category, state, controls.value));
  }

  /** The field-by-field writes of one control, in order. */
  method SerializeControl(control: Control) returns (raw: Fields)
    ensures raw == ControlFields(control)
  {
    raw := map["id" := Text(control.id), "kind" := Text(control.kind), "label" := Text(control.caption),
               "action" := Text(control.action)];
    if |control.stateKey| > 0 {
      raw := raw["stateKey" := Text(control.stateKey)];
    }
    if |control.payloadKey| > 0 {
      raw := raw["payloadKey" := Text(control.payloadKey)];
    }
    if control.kind == "slider" {
      raw := raw["minimum" := Number(control.minimum)];
      raw := raw["maximum" := Number(control.maximum)];
      raw := raw["step" := Number(control.step)];
    }
    if control.kind == "enum" {
      raw := raw["options" := List(OptionsJson(control.options))];
    }
    if |control.unit| > 0 {
      raw := raw["unit" := Text(control.unit)];
    }
    if control.primary {
      raw := raw["primary" := Bool(true)];
    }
    if control.requiresConfirmation {
      raw := raw["requiresConfirmation" := Bool(true)];
    }
  }

  method SerializeGenericDevice(device: DeviceInfo) returns (raw: Fields)
    requires device.GenericDevice?
    ensures raw == Serialize(device)
  {
    hide ControlFields, BaseFields;
    var category := CategoryFields(device.category);
    var controls: seq<Json> := [];
    for index := 0 to |device.controls|
      invariant controls == ControlsJson(device.controls[..index])
    {
      var control := SerializeControl(device.controls[index]);
      controls := controls + [Record(control)];
    }
    assert device.controls[..|device.controls|] == device.controls;
    raw := BaseFields(device.base, device.genericKind);
    raw := raw["category" := Record(category)];
    raw := raw["state" := Record(device.state)];
    raw := raw["controls" := List(controls)];
  }

  // ----- snapshots

  /** A record of a built-in family whose parser throws. */
  predicate Spoils(entry: Json) {
    !entry.Record? || (ParseDevice(entry.fields).None? && BuiltinEntry(entry.fields))
  }

  predicate BuiltinEntry(raw: Fields) {
    var v := Get(raw, "type");
    v.Text? && v.s in BUILTIN_TYPES
  }

  predicate WellFormed(entry: Json) {
    entry.Record? && ParseDevice(entry.fields).Some?
  }

  /** The devices of the well-formed entries, in order. */
  function DevicesOf(entries: seq<Json>): seq<DeviceInfo> {
    if entries == [] then []
    else
      var last := entries[|entries| - 1];
      DevicesOf(entries[..|entries| - 1]) + if WellFormed(last) then [ParseDevice(last.fields).value] else []
  }

  /** None is an exception. */
  method ParseDevices(value: Json) returns (devices: Option<seq<DeviceInfo>>)
    ensures devices.None? <==> !value.List? || exists e <- value.items :: Spoils(e)
    ensures devices.Some? ==> devices.value == DevicesOf(value.items)
  {
    hide ParseDevice;
    if !value.List? {
      return None;
    }
    var result := [];
    for index := 0 to |value.items|
      invariant result == DevicesOf(value.items[..index])
      invariant forall i :: 0 <= i < index ==> !Spoils(value.items[i])
    {
      assert value.items[..index + 1][..index] == value.items[..index];
      var item := value.items[index];
      if !item.Record? {
        assert Spoils(item);
        return None;
      }
      var parsed := ParseDevice(item.fields);
      match parsed
      case Some(device) => result := result + [device];
      case None =>
        var kind := Get(item.fields, "type");
        if kind == Text("light") || kind == Text("environment") || kind == Text("airConditioner") ||
           kind == Text("doorLock") {
          assert Spoils(item);
          return None;
        }
        assert !Spoils(item);
    }
    assert value.items[..|value.items|] == value.items;
    return Some(result);
  }

  /** The positions of the well-formed entries. */
  function Positions(entries: seq<Json>): seq<nat> {
    if entries == [] then []
    else
      Positions(entries[..|entries| - 1]) + if WellFormed(entries[|entries| - 1]) then [|entries| - 1] else []
  }

  predicate Gives(entry: Json, device: DeviceInfo) {
    entry.Record? && ParseDevice(entry.fields) == Some(device)
  }

  /** A snapshot gives one device for each well-formed entry and no other, in the entries' order. */
  lemma {:induction false} SnapshotInOrder(entries: seq<Json>)
    ensures var at := Positions(entries);
            && |at| == |DevicesOf(entries)|
            && (forall k :: 0 <= k < |at| ==> at[k] < |entries| && Gives(entries[at[k]], DevicesOf(entries)[k]))
            && (forall j, k :: 0 <= j < k < |at| ==> at[j] < at[k])
            && (forall i :: 0 <= i < |entries| && WellFormed(entries[i]) ==> i in at)
  {
    hide ParseDevice;
    if entries != [] {
      SnapshotInOrder(entries[..|entries| - 1]);
    }
  }

  function SerializeAll(devices: seq<DeviceInfo>): (entries: seq<Json>)
    ensures |entries| == |devices|
  {
    seq(|devices|, i requires 0 <= i < |devices| => Record(Serialize(devices[i])))
  }

  function KeptAll(devices: seq<DeviceInfo>): (kept: seq<DeviceInfo>)
    ensures |kept| == |devices|
  {
    seq(|devices|, i requires 0 <= i < |devices| => Kept(devices[i]))
  }

  /** Serializing the devices of any snapshot and parsing again spoils nothing and gives them all back. */
  lemma {:induction false} SnapshotAgain(devices: seq<DeviceInfo>)
    requires forall d <- devices :: DeviceOk(d)
    ensures forall e <- SerializeAll(devices) :: !Spoils(e)
    ensures DevicesOf(SerializeAll(devices)) == KeptAll(devices)
  {
    hide ParseDevice, Serialize, DeviceOk;
    if devices != [] {
      var front, last := devices[..|devices| - 1], devices[|devices| - 1];
      SnapshotAgain(front);
      RoundTrip(last);
      assert SerializeAll(devices) == SerializeAll(front) + [Record(Serialize(last))];
      assert SerializeAll(devices)[..|devices| - 1] == SerializeAll(front);
      assert KeptAll(devices) == KeptAll(front) + [Kept(last)];
    }
  }

  lemma {:induction false} SnapshotDevicesOk(entries: seq<Json>)
    ensures forall d <- DevicesOf(entries) :: DeviceOk(d)
  {
    hide ParseDevice, DeviceOk;
    if entries != [] {
      SnapshotDevicesOk(entries[..|entries| - 1]);
      var last := entries[|entries| - 1];
      if WellFormed(last) {
        ParsedOk(last.fields);
      }
    }
  }

  /** The round trip of every snapshot the parser accepts. */
  lemma SnapshotRoundTrip(entries: seq<Json>)
    ensures forall e <- SerializeAll(DevicesOf(entries)) :: !Spoils(e)
    ensures DevicesOf(SerializeAll(DevicesOf(entries))) == KeptAll(DevicesOf(entries))
  {
    hide ParseDevice, Serialize, DeviceOk;
    SnapshotDevicesOk(entries);
    SnapshotAgain(DevicesOf(entries));
  }
}
