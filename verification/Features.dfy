/** The client's grouping of devices into home features and rooms. */
module Features {
  import opened Lists
  import opened Wrappers
  import opened DeviceCodec

  datatype Capability = Capability(kind: string, title: string, icon: string, actions: seq<string>)

  datatype Feature = Feature(id: string, title: string, icon: string, kinds: seq<string>, homeOnly: bool)

  const CAPABILITIES: seq<Capability> := [
    Capability("light", "灯光", "○", ["setPower", "setBrightness", "setAutomationConfig"]),
    Capability("environment", "环境", "≈",
               ["reportTemperature", "reportHumidity", "reportIlluminance", "reportPresence"]),
    Capability("airConditioner", "空调", "❄",
               ["setPower", "setMode", "setTemperature", "setFanSpeed", "setDehumidify", "setBrand"]),
    Capability("doorLock", "门锁", "🔒", ["lock", "unlock", "setAutoLockConfig"])]

  const HOME_FEATURES: seq<Feature> := [
    Feature("lighting", "灯光", "○", ["light"], false),
    Feature("environment", "环境", "≈", ["environment", "airConditioner"], false),
    Feature("locks", "门锁", "🔒", ["doorLock"], true)]

  // ----- what the grouping should be

  predicate Builtin(d: DeviceInfo) {
    KindOf(d) in BUILTIN_TYPES
  }

  /** The feature a device belongs to. */
  function FeatureIdOf(d: DeviceInfo): string {
    if KindOf(d) == "light" then "lighting"
    else if KindOf(d) == "doorLock" then "locks"
    else if Builtin(d) then "environment"
    else d.category.id
  }

  /** Locks and devices of a home-only category are listed in no room. */
  predicate HomeOnly(d: DeviceInfo) {
    if Builtin(d) then KindOf(d) == "doorLock" else d.category.homeOnly
  }

  function OfFeature(devices: seq<DeviceInfo>, id: string): seq<DeviceInfo> {
    if devices == [] then []
    else
      var last := devices[|devices| - 1];
      OfFeature(devices[..|devices| - 1], id) + if FeatureIdOf(last) == id then [last] else []
  }

  function OfRoom(devices: seq<DeviceInfo>, room: string): seq<DeviceInfo> {
    if devices == [] then []
    else
      var last := devices[|devices| - 1];
      OfRoom(devices[..|devices| - 1], room) + if last.base.roomId == room && !HomeOnly(last) then [last] else []
  }

  predicate HasFeature(features: seq<Feature>, id: string) {
    exists f <- features :: f.id == id
  }

  /** The home features, then one for each further category, as its first device describes it. */
  function HomeFeatures(devices: seq<DeviceInfo>): seq<Feature> {
    if devices == [] then HOME_FEATURES
    else
      var front, last := HomeFeatures(devices[..|devices| - 1]), devices[|devices| - 1];
      if Builtin(last) || HasFeature(front, last.category.id) then front
      else front + [Feature(last.category.id, last.category.title, last.category.icon, [], last.category.homeOnly)]
  }

  // ----- the loops

  method GetCapability(kind: string) returns (capability: Option<Capability>)
    ensures capability.Some? <==> kind in BUILTIN_TYPES
    ensures capability.Some? ==> capability.value in CAPABILITIES && capability.value.kind == kind
  {
    var index := 0;
    while index < |CAPABILITIES|
      invariant 0 <= index <= |CAPABILITIES|
      invariant forall i :: 0 <= i < index ==> CAPABILITIES[i].kind != kind
    {
      if CAPABILITIES[index].kind == kind {
        return Some(CAPABILITIES[index]);
      }
      index := index + 1;
    }
    assert CAPABILITIES[0].kind != kind && CAPABILITIES[1].kind != kind;
    assert CAPABILITIES[2].kind != kind && CAPABILITIES[3].kind != kind;
    return None;
  }

  method GetHomeFeatures(devices: seq<DeviceInfo>) returns (features: seq<Feature>)
    ensures features == HomeFeatures(devices)
  {
    features := [];
    for index := 0 to |HOME_FEATURES|
      invariant features == HOME_FEATURES[..index]
    {
      features := features + [HOME_FEATURES[index]];
    }
    for index := 0 to |devices|
      invariant features == HomeFeatures(devices[..index])
    {
      assert devices[..index + 1][..index] == devices[..index];
      var device := devices[index];
      var capability := GetCapability(KindOf(device));
      if capability.Some? {
        continue;
      }
      var category := device.category;
      var known, at := false, 0;
      while at < |features|
        invariant 0 <= at <= |features|
        invariant known ==> HasFeature(features, category.id)
        invariant !known ==> forall i :: 0 <= i < at ==> features[i].id != category.id
      {
        if features[at].id == category.id {
          known := true;
          break;
        }
        at := at + 1;
      }
      if !known {
        features := features + [Feature(category.id, category.title, category.icon, [], category.homeOnly)];
      }
    }
    assert devices[..|devices|] == devices;
  }

  method GetFeature(id: string, devices: seq<DeviceInfo>) returns (feature: Option<Feature>)
    ensures feature.Some? <==> HasFeature(HomeFeatures(devices), id)
    ensures feature.Some? ==> feature.value in HomeFeatures(devices) && feature.value.id == id
  {
    var features := GetHomeFeatures(devices);
    for index := 0 to |features|
      invariant forall i :: 0 <= i < index ==> features[i].id != id
    {
      if features[index].id == id {
        return Some(features[index]);
      }
    }
    return None;
  }

  /** Whether a device is listed is decided by the feature's kinds or by the device's category; either way it
      is by FeatureIdOf, and a feature nobody has lists nobody. */
  method GetDevicesByFeature(devices: seq<DeviceInfo>, id: string) returns (listed: seq<DeviceInfo>)
    ensures listed == OfFeature(devices, id)
  {
    hide HomeFeatures, FeatureIdOf, HOME_FEATURES, Builtin;
    var feature := GetFeature(id, devices);
    if feature.None? {
      NobodyHas(devices, id);
      return [];
    }
    listed := [];
    for index := 0 to |devices|
      invariant listed == OfFeature(devices[..index], id)
    {
      assert devices[..index + 1][..index] == devices[..index];
      var device := devices[index];
      assert device in devices;
      Belongs(devices, feature.value, device);
      var belongs := KindOf(device) in feature.value.kinds;
      var capability := GetCapability(KindOf(device));
      if capability.None? {
        belongs := device.category.id == id;
      }
      if belongs {
        listed := listed + [device];
      }
    }
    assert devices[..|devices|] == devices;
  }

  method FeatureForKind(kind: string) returns (feature: Option<Feature>)
    ensures feature.Some? <==> kind in BUILTIN_TYPES
    ensures feature.Some? ==> (feature.value.homeOnly <==> kind == "doorLock")
  {
    var index := 0;
    while index < |HOME_FEATURES|
      invariant 0 <= index <= |HOME_FEATURES|
      invariant forall i :: 0 <= i < index ==> kind !in HOME_FEATURES[i].kinds
    {
      if kind in HOME_FEATURES[index].kinds {
        return Some(HOME_FEATURES[index]);
      }
      index := index + 1;
    }
    assert kind !in HOME_FEATURES[0].kinds && kind !in HOME_FEATURES[1].kinds && kind !in HOME_FEATURES[2].kinds;
    assert "light" in HOME_FEATURES[0].kinds;
    return None;
  }

  method GetRoomDevices(devices: seq<DeviceInfo>, roomId: string) returns (listed: seq<DeviceInfo>)
    ensures listed == OfRoom(devices, roomId)
  {
    listed := [];
    for index := 0 to |devices|
      invariant listed == OfRoom(devices[..index], roomId)
    {
      assert devices[..index + 1][..index] == devices[..index];
      var device := devices[index];
      var feature := FeatureForKind(KindOf(device));
      var capability := GetCapability(KindOf(device));
      var genericHomeOnly := capability.None? && device.category.homeOnly;
      if device.base.roomId == roomId && !genericHomeOnly && (feature.None? || !feature.value.homeOnly) {
        listed := listed + [device];
      }
    }
    assert devices[..|devices|] == devices;
  }

  method GetRoomIds(devices: seq<DeviceInfo>) returns (ids: seq<string>)
    ensures Distinct(ids)
    ensures forall r :: r in ids <==> r != "" && exists d <- devices :: d.base.roomId == r
  {
    ids := [];
    for index := 0 to |devices|
      invariant Distinct(ids)
      invariant forall r :: r in ids <==> r != "" && exists i :: 0 <= i < index && devices[i].base.roomId == r
    {
      var roomId := devices[index].base.roomId;
      if |roomId| > 0 && roomId !in ids {
        ids := ids + [roomId];
      }
    }
  }

  // ----- the grouping partitions the devices

  function Ids(features: seq<Feature>): (ids: seq<string>)
    ensures |ids| == |features|
  {
    seq(|features|, i requires 0 <= i < |features| => features[i].id)
  }

  /** Features beyond the built-in ones list no kinds, and ids are distinct. */
  predicate WellGrouped(features: seq<Feature>) {
    && HOME_FEATURES <= features && |features| >= 3
    && (forall f <- features[3..] :: f.kinds == []) && Distinct(Ids(features))
  }

  lemma HomeFeaturesGrouped()
    ensures WellGrouped(HOME_FEATURES)
  {
    assert Ids(HOME_FEATURES)[0] == "lighting" && Ids(HOME_FEATURES)[1] == "environment";
    assert Ids(HOME_FEATURES)[2] == "locks";
  }

  lemma AppendGrouped(features: seq<Feature>, f: Feature)
    requires WellGrouped(features) && !HasFeature(features, f.id) && f.kinds == []
    ensures WellGrouped(features + [f])
  {
    hide HOME_FEATURES;
    assert (features + [f])[3..] == features[3..] + [f];
    assert Ids(features + [f]) == Ids(features) + [f.id];
    assert forall i :: 0 <= i < |features| ==> features[i].id != f.id;
  }

  lemma {:induction false} HomeFeaturesShape(devices: seq<DeviceInfo>)
    ensures WellGrouped(HomeFeatures(devices))
    ensures forall d <- devices :: HasFeature(HomeFeatures(devices), FeatureIdOf(d))
  {
    hide WellGrouped, HOME_FEATURES;
    if devices == [] {
      HomeFeaturesGrouped();
    } else {
      var front, last := devices[..|devices| - 1], devices[|devices| - 1];
      HomeFeaturesShape(front);
      var features, more := HomeFeatures(front), HomeFeatures(devices);
      assert devices == front + [last];
      assert forall f <- features :: f in more;
      if Builtin(last) {
        BuiltinsHaveFeatures(features, last);
      } else if !HasFeature(features, last.category.id) {
        AppendGrouped(features, more[|features|]);
        assert more[|features|].id == last.category.id && more[|features|] in more;
      }
    }
  }

  lemma BuiltinsHaveFeatures(features: seq<Feature>, d: DeviceInfo)
    requires WellGrouped(features) && Builtin(d)
    ensures HasFeature(features, FeatureIdOf(d))
  {
    assert features[0].id == "lighting" && features[1].id == "environment" && features[2].id == "locks";
    assert features[0] in features && features[1] in features && features[2] in features;
  }

  lemma Belongs(devices: seq<DeviceInfo>, feature: Feature, d: DeviceInfo)
    requires feature in HomeFeatures(devices) && d in devices
    ensures FeatureIdOf(d) == feature.id <==>
            if KindOf(d) in BUILTIN_TYPES then KindOf(d) in feature.kinds else d.category.id == feature.id
  {
    hide HomeFeatures;
    KindsTell(devices, feature);
  }

  lemma NobodyHas(devices: seq<DeviceInfo>, id: string)
    requires !HasFeature(HomeFeatures(devices), id)
    ensures OfFeature(devices, id) == []
  {
    HomeFeaturesShape(devices);
    NoneOf(devices, id);
  }

  lemma {:induction false} NoneOf(devices: seq<DeviceInfo>, id: string)
    requires forall d <- devices :: FeatureIdOf(d) != id
    ensures OfFeature(devices, id) == []
  {
    if devices != [] {
      NoneOf(devices[..|devices| - 1], id);
    }
  }

  /** A feature lists the kind of a built-in device exactly when it is that device's feature. */
  lemma KindsTell(devices: seq<DeviceInfo>, feature: Feature)
    requires feature in HomeFeatures(devices)
    ensures forall d <- devices :: Builtin(d) ==> (KindOf(d) in feature.kinds <==> FeatureIdOf(d) == feature.id)
  {
    HomeFeaturesShape(devices);
    var features := HomeFeatures(devices);
    var at :| 0 <= at < |features| && features[at] == feature;
    assert features[0] == HOME_FEATURES[0] && features[1] == HOME_FEATURES[1] && features[2] == HOME_FEATURES[2];
    assert Ids(features)[at] == feature.id;
    if at >= 3 {
      assert features[3..][at - 3] == feature;
      assert Ids(features)[0] == "lighting" && Ids(features)[1] == "environment" && Ids(features)[2] == "locks";
    }
  }

  function AllLists(devices: seq<DeviceInfo>, ids: seq<string>): seq<DeviceInfo> {
    if ids == [] then []
    else AllLists(devices, ids[..|ids| - 1]) + OfFeature(devices, ids[|ids| - 1])
  }

  lemma {:induction false} OfFeatureCount(devices: seq<DeviceInfo>, id: string, d: DeviceInfo)
    ensures multiset(OfFeature(devices, id))[d] == if FeatureIdOf(d) == id then multiset(devices)[d] else 0
  {
    hide FeatureIdOf;
    if devices != [] {
      OfFeatureCount(devices[..|devices| - 1], id, d);
      assert devices == devices[..|devices| - 1] + [devices[|devices| - 1]];
    }
  }

  lemma {:induction false} ListsCount(devices: seq<DeviceInfo>, ids: seq<string>, d: DeviceInfo)
    requires Distinct(ids)
    ensures multiset(AllLists(devices, ids))[d] == if FeatureIdOf(d) in ids then multiset(devices)[d] else 0
  {
    if ids != [] {
      var front, last := ids[..|ids| - 1], ids[|ids| - 1];
      ListsCount(devices, front, d);
      OfFeatureCount(devices, last, d);
      assert FeatureIdOf(d) in ids <==> FeatureIdOf(d) in front || FeatureIdOf(d) == last;
      assert last !in front;
    }
  }

  /** Over the home features of any device list, the lists of devices hold every device as often as it occurs. */
  lemma FeaturesPartition(devices: seq<DeviceInfo>)
    ensures Distinct(Ids(HomeFeatures(devices)))
    ensures multiset(AllLists(devices, Ids(HomeFeatures(devices)))) == multiset(devices)
  {
    hide HomeFeatures;
    HomeFeaturesShape(devices);
    var ids := Ids(HomeFeatures(devices));
    forall d: DeviceInfo
      ensures multiset(AllLists(devices, ids))[d] == multiset(devices)[d]
    {
      ListsCount(devices, ids, d);
      if d in devices {
        var f :| f in HomeFeatures(devices) && f.id == FeatureIdOf(d);
        var at :| 0 <= at < |ids| && HomeFeatures(devices)[at] == f;
        assert ids[at] == FeatureIdOf(d);
      } else {
        assert multiset(devices)[d] == 0;
      }
    }
  }

  /** Positions, in rising order, of the devices of a feature. */
  function PositionsOf(devices: seq<DeviceInfo>, id: string): seq<nat> {
    if devices == [] then []
    else
      PositionsOf(devices[..|devices| - 1], id)
      + if FeatureIdOf(devices[|devices| - 1]) == id then [|devices| - 1] else []
  }

  lemma {:induction false} ListKeepsOrder(devices: seq<DeviceInfo>, id: string)
    ensures var at := PositionsOf(devices, id);
            && |at| == |OfFeature(devices, id)|
            && (forall k :: 0 <= k < |at| ==> at[k] < |devices| && devices[at[k]] == OfFeature(devices, id)[k])
            && (forall j, k :: 0 <= j < k < |at| ==> at[j] < at[k])
  {
    if devices != [] {
      ListKeepsOrder(devices[..|devices| - 1], id);
    }
  }

  // ----- rooms

  function RoomLists(devices: seq<DeviceInfo>, rooms: seq<string>): seq<DeviceInfo> {
    if rooms == [] then []
    else RoomLists(devices, rooms[..|rooms| - 1]) + OfRoom(devices, rooms[|rooms| - 1])
  }

  lemma {:induction false} OfRoomCount(devices: seq<DeviceInfo>, room: string, d: DeviceInfo)
    ensures multiset(OfRoom(devices, room))[d]
         == if d.base.roomId == room && !HomeOnly(d) then multiset(devices)[d] else 0
  {
    hide HomeOnly;
    if devices != [] {
      OfRoomCount(devices[..|devices| - 1], room, d);
      assert devices == devices[..|devices| - 1] + [devices[|devices| - 1]];
    }
  }

  lemma {:induction false} RoomListsCount(devices: seq<DeviceInfo>, rooms: seq<string>, d: DeviceInfo)
    requires Distinct(rooms)
    ensures multiset(RoomLists(devices, rooms))[d]
         == if d.base.roomId in rooms && !HomeOnly(d) then multiset(devices)[d] else 0
  {
    if rooms != [] {
      var front, last := rooms[..|rooms| - 1], rooms[|rooms| - 1];
      RoomListsCount(devices, front, d);
      OfRoomCount(devices, last, d);
      assert d.base.roomId in rooms <==> d.base.roomId in front || d.base.roomId == last;
      assert last !in front;
    }
  }

  /** Over the room ids of any device list, the room lists hold each device in a named room that is not
      home-only as often as it occurs, and no other device. */
  lemma RoomsPartition(devices: seq<DeviceInfo>, rooms: seq<string>, d: DeviceInfo)
    requires Distinct(rooms)
    requires forall r :: r in rooms <==> r != "" && exists e <- devices :: e.base.roomId == r
    ensures multiset(RoomLists(devices, rooms))[d]
         == if d.base.roomId != "" && !HomeOnly(d) then multiset(devices)[d] else 0
  {
    RoomListsCount(devices, rooms, d);
    if d !in devices {
      assert multiset(devices)[d] == 0;
    }
  }

  // ----- device by device

  /** The feature that shows the device: by its type, or its category's. */
  function ShownUnder(d: DeviceInfo): string {
    match d
    case LightDevice(_, _, _, _, _) => "lighting"
    case EnvironmentDevice(_, _, _, _, _, _) => "environment"
    case AirConditionerDevice(_, _, _, _, _, _, _, _) => "environment"
    case DoorLockDevice(_, _, _, _, _, _, _) => "locks"
    case GenericDevice(_, _, category, _, _) => category.id
  }

  /** A generic device never has the type of a built-in one: the parser sees to that. */
  predicate ProperlyTyped(d: DeviceInfo) {
    d.GenericDevice? ==> d.genericKind !in {"light", "environment", "airConditioner", "doorLock"}
  }

  lemma {:induction false} ListedUnderFeature(devices: seq<DeviceInfo>, id: string, d: DeviceInfo)
    requires forall e <- devices :: ProperlyTyped(e)
    ensures d in OfFeature(devices, id) <==> d in devices && ShownUnder(d) == id
  {
    if devices != [] {
      var front, last := devices[..|devices| - 1], devices[|devices| - 1];
      assert devices == front + [last] && last in devices;
      ListedUnderFeature(front, id, d);
    }
  }

  /** A room lists its devices but for the locks and the devices of categories shown at home only. */
  lemma {:induction false} ListedInRoom(devices: seq<DeviceInfo>, room: string, d: DeviceInfo)
    requires forall e <- devices :: ProperlyTyped(e)
    ensures d in OfRoom(devices, room) <==>
            && d in devices && d.base.roomId == room && !d.DoorLockDevice?
            && (d.GenericDevice? ==> !d.category.homeOnly)
  {
    if devices != [] {
      var front, last := devices[..|devices| - 1], devices[|devices| - 1];
      assert devices == front + [last] && last in devices;
      ListedInRoom(front, room, d);
    }
  }

  lemma {:induction false} FirstFeatures(devices: seq<DeviceInfo>)
    ensures HOME_FEATURES <= HomeFeatures(devices)
    ensures var fs := HomeFeatures(devices);
      && |fs| >= 3
      && fs[0] == Feature("lighting", "灯光", "○", ["light"], false)
      && fs[1] == Feature("environment", "环境", "≈", ["environment", "airConditioner"], false)
      && fs[2] == Feature("locks", "门锁", "🔒", ["doorLock"], true)
  {
    if devices != [] {
      FirstFeatures(devices[..|devices| - 1]);
    }
  }

  predicate MadeFrom(f: Feature, d: DeviceInfo) {
    d.GenericDevice? && f == Feature(d.category.id, d.category.title, d.category.icon, [], d.category.homeOnly)
  }

  /** Every further feature is made from the category of a device. */
  lemma {:induction false} FurtherFeature(devices: seq<DeviceInfo>, k: nat)
    requires (forall e <- devices :: ProperlyTyped(e)) && 3 <= k < |HomeFeatures(devices)|
    ensures exists d <- devices :: MadeFrom(HomeFeatures(devices)[k], d)
  {
    hide MadeFrom;
    assert devices != [];
    var front, last := devices[..|devices| - 1], devices[|devices| - 1];
    assert devices == front + [last] && last in devices;
    if k < |HomeFeatures(front)| {
      FurtherFeature(front, k);
      var d :| d in front && MadeFrom(HomeFeatures(front)[k], d);
      assert d in devices;
    } else {
      LastFeature(front, last);
    }
  }

  lemma LastFeature(front: seq<DeviceInfo>, last: DeviceInfo)
    requires ProperlyTyped(last) && |HomeFeatures(front + [last])| > |HomeFeatures(front)|
    ensures |HomeFeatures(front + [last])| == |HomeFeatures(front)| + 1
    ensures MadeFrom(HomeFeatures(front + [last])[|HomeFeatures(front)|], last)
  {
    assert (front + [last])[..|front|] == front;
  }

  /** No device is without a feature. */
  lemma {:induction false} FeatureOfDevice(devices: seq<DeviceInfo>, d: DeviceInfo)
    requires (forall e <- devices :: ProperlyTyped(e)) && d in devices
    ensures HasFeature(HomeFeatures(devices), ShownUnder(d))
  {
    var front, last := devices[..|devices| - 1], devices[|devices| - 1];
    assert devices == front + [last];
    var fs := HomeFeatures(devices);
    if d in front {
      FeatureOfDevice(front, d);
      var f :| f in HomeFeatures(front) && f.id == ShownUnder(d);
      assert f in fs;
    } else {
      FirstFeatures(devices);
      assert fs[0] in fs && fs[1] in fs && fs[2] in fs && fs[|fs| - 1] in fs;
    }
  }
}
