/**
 * What the registry lets in: exactly which registrations, rooms, removals and drivers are accepted, and what is
 * stored for each.
 */
module Admissions {
  import opened Lists
  import opened Wrappers
  import opened Devices
  import opened Registry
  import opened Operations
  import opened Structure

  function SetOf(s: seq<string>): set<string> {
    set x | x in s
  }

  /** The four families that can be registered, each with its category and its capabilities. */
  predicate Registrable(f: Family, category: string, capabilities: set<string>) {
    || (f == LightFamily && category == "lighting"
        && capabilities == {"setPower", "setBrightness", "setAutomationConfig"})
    || (f == EnvironmentFamily && category == "environment"
        && capabilities == {"reportTemperature", "reportHumidity", "reportIlluminance", "reportPresence"})
    || (f == AirConditionerFamily && category == "environment"
        && capabilities == {"setPower", "setMode", "setTemperature", "setFanSpeed", "setDehumidify", "setBrand"})
    || (f == HumidifierFamily && category == "environment" && capabilities == {"setPower", "setTargetHumidity"})
  }

  /** The first fields of a registered device. */
  predicate FirstFields(f: Family, b: Body) {
    match f
    case LightFamily => b == Light(false, 60, 60, Automation(false, 100, 60, None), None)
    case EnvironmentFamily => b == Environment(24.0, 62.0, 95.0, false, true, 0)
    case AirConditionerFamily => b == AirConditioner("generic", false, "auto", 24, "auto", false, None)
    case HumidifierFamily => b == Humidifier(false, 55)
    case _ => false
  }

  /** The id names a device that was registered just so. */
  predicate RegisteredAs(reg: Reg, r: Registration) {
    r.deviceId in reg.devices &&
    var d := reg.devices[r.deviceId];
    && d.removable && d.name == r.name && d.roomId == r.roomId && d.kind == r.kind
    && d.categoryId == Some(r.categoryId) && d.capabilities == Some(multiset(r.capabilities))
  }

  /** A registration is accepted exactly when its room can be chosen, its type has a driver that offers just these
      capabilities under this category, and its id is new or names the same registration. */
  lemma RegistrationExactly(reg: Reg, r: Registration, now: int)
    ensures RegisterProvisioned(reg, r, now).result.Ok? <==>
      && r.roomId in reg.rooms && reg.rooms[r.roomId].selectable
      && r.kind in reg.drivers
      && Registrable(reg.drivers[r.kind].family, r.categoryId, SetOf(r.capabilities))
      && (r.deviceId !in reg.devices || RegisteredAs(reg, r))
    ensures RegisterProvisioned(reg, r, now).result.Err? ==>
              RegisterProvisioned(reg, r, now) == Changed(reg, Err(InvalidCommand))
    ensures RegisterProvisioned(reg, r, now).result.Ok? && r.deviceId in reg.devices ==>
              RegisterProvisioned(reg, r, now) ==
              Changed(reg, Ok(PublicView(reg.devices[r.deviceId], reg.categories)))
  {
    hide PublicView;
    assert SetOf(r.capabilities) == Elements(r.capabilities);
  }

  /** By name, for the types of the default drivers. */
  lemma RegistrableTypes(reg: Reg, r: Registration)
    requires RegOk(reg) && r.kind in BUILTIN_KINDS
    ensures r.kind in reg.drivers
    ensures Registrable(reg.drivers[r.kind].family, r.categoryId, SetOf(r.capabilities)) <==>
      var capabilities := SetOf(r.capabilities);
      || (r.kind == "light" && r.categoryId == "lighting"
          && capabilities == {"setPower", "setBrightness", "setAutomationConfig"})
      || (r.kind == "environment" && r.categoryId == "environment"
          && capabilities == {"reportTemperature", "reportHumidity", "reportIlluminance", "reportPresence"})
      || (r.kind == "airConditioner" && r.categoryId == "environment"
          && capabilities == {"setPower", "setMode", "setTemperature", "setFanSpeed", "setDehumidify", "setBrand"})
      || (r.kind == "humidifier" && r.categoryId == "environment"
          && capabilities == {"setPower", "setTargetHumidity"})
  {
    hide RegCore, HomeDevices;
    assert Some(reg.drivers[r.kind].family) == BuiltinFamily(r.kind);
  }

  /** What an accepted registration stores, at the end of the registry: a device that is online, removable and at
      version 1, with the first fields of its family; its view is the answer. */
  lemma RegistrationStores(reg: Reg, r: Registration, now: int)
    requires RegisterProvisioned(reg, r, now).result.Ok? && r.deviceId !in reg.devices
    ensures var c := RegisterProvisioned(reg, r, now);
      && c.reg.order == reg.order + [r.deviceId]
      && r.deviceId in c.reg.devices && c.reg.devices == reg.devices[r.deviceId := c.reg.devices[r.deviceId]]
      && c.reg == reg.(order := c.reg.order, devices := c.reg.devices)
      && c.result == Ok(PublicView(c.reg.devices[r.deviceId], reg.categories))
      && var d := c.reg.devices[r.deviceId];
         && d.id == r.deviceId && d.name == r.name && d.roomId == r.roomId && d.kind == r.kind
         && d.categoryId == Some(r.categoryId) && d.capabilities == Some(multiset(r.capabilities))
         && d.removable && d.online && d.stateVersion == 1 && d.updatedAt == now
         && d.commandDelayMs == 0 && !d.failNextCommand
         && FirstFields(reg.drivers[r.kind].family, d.body)
  {
    hide PublicView;
  }

  // ----- rooms and removals

  /** A room is accepted exactly when its id and its name are new; it can then be chosen. */
  lemma RoomExactly(reg: Reg, roomId: string, name: string)
    ensures var c := CreateRoom(reg, roomId, name);
      if roomId !in reg.rooms && forall r <- reg.rooms :: reg.rooms[r].name != name
      then c == Changed(reg.(rooms := reg.rooms[roomId := Room(name, true)]), Ok(Room(name, true)))
      else c == Changed(reg, Err(InvalidCommand))
  {
    forall r <- reg.rooms ensures reg.rooms[r] in reg.rooms.Values {
    }
  }

  /** A removal is accepted exactly for a device that was registered; the others stay, in their order. */
  lemma RemovalExactly(reg: Reg, id: string)
    requires Listed(reg)
    ensures var c := RemoveProvisioned(reg, id);
      && (c.result.Ok? <==> id in reg.devices && reg.devices[id].removable)
      && (c.result.Err? ==> c == Changed(reg, Err(InvalidCommand)))
      && (c.result.Ok? ==>
            && c.result.value == PublicView(reg.devices[id], reg.categories)
            && c.reg == reg.(order := c.reg.order, devices := reg.devices - {id})
            && (forall x :: x in c.reg.order <==> x in reg.order && x != id)
            && (forall x, y :: Precedes(c.reg.order, x, y) ==> Precedes(reg.order, x, y)))
  {
    hide PublicView;
    forall x, y | Precedes(RemoveProvisioned(reg, id).reg.order, x, y) ensures Precedes(reg.order, x, y) {
      if RemoveProvisioned(reg, id).result.Ok? { WithoutKeepsOrder(reg.order, id, x, y); }
    }
  }

  // ----- drivers

  /** A declared category names itself completely and is new. */
  predicate NewCategory(reg: Reg, c: DeclaredCategory) {
    && c.id.Some? && c.id.value != "" && c.id.value !in reg.categories
    && c.title.Some? && c.title.value != "" && c.icon.Some? && c.icon.value != "" && c.homeOnly.Some?
  }

  /** A declared device has a new id, the driver's type, no category of its own making, and a known one where the
      driver asks for it. */
  predicate NewDeclaredDevice(reg: Reg, declared: Declaration, d: DeclaredDevice) {
    && d.id.Some? && d.id.value != "" && d.id.value !in reg.devices
    && d.kind == Some(declared.driver.kind) && !d.namesCategory
    && (declared.driver.requiresCategory ==>
          && d.device.categoryId.Some?
          && (d.device.categoryId.value in reg.categories
              || exists c <- declared.categories :: c.id == Some(d.device.categoryId.value)))
  }

  /** A driver is accepted exactly when its type is new and everything it declares is new, complete and named once. */
  lemma DriverExactly(reg: Reg, declared: Declaration)
    ensures RegisterDriver(reg, declared).Some? <==>
      && declared.driver.kind != "" && declared.driver.kind !in reg.drivers
      && (forall c <- declared.categories :: NewCategory(reg, c))
      && (forall i, j :: 0 <= i < j < |declared.categories| ==>
            declared.categories[i].id != declared.categories[j].id)
      && (forall d <- declared.devices :: NewDeclaredDevice(reg, declared, d))
      && (forall i, j :: 0 <= i < j < |declared.devices| ==> declared.devices[i].id != declared.devices[j].id)
  {
    hide Registered;
    NewCategoriesIds(declared.categories);
    if forall c <- declared.categories :: NewCategory(reg, c) {
      forall c <- declared.categories ensures c.id.value in NewCategories(declared.categories) {
        DeclaredIsNew(declared.categories, c);
      }
    }
  }

  lemma {:induction false} DeclaredIsNew(cs: seq<DeclaredCategory>, c: DeclaredCategory)
    requires c in cs && forall d <- cs :: WellFormedCategory(d)
    ensures c.id.Some? && c.id.value in NewCategories(cs)
    ensures c.title.Some? && c.icon.Some? && c.homeOnly.Some?
    decreases |cs|
  {
    var front, last := cs[..|cs| - 1], cs[|cs| - 1];
    assert cs == front + [last];
    if c in front {
      DeclaredIsNew(front, c);
    }
  }

  lemma {:induction false} DeclaredCategoryStored(cs: seq<DeclaredCategory>, c: DeclaredCategory)
    requires c in cs && (forall d <- cs :: WellFormedCategory(d))
    requires forall i, j :: 0 <= i < j < |cs| ==> cs[i].id != cs[j].id
    ensures c.id.Some? && c.title.Some? && c.icon.Some? && c.homeOnly.Some? && c.id.value in NewCategories(cs)
    ensures NewCategories(cs)[c.id.value] == Category(c.id.value, c.title.value, c.icon.value, c.homeOnly.value)
    decreases |cs|
  {
    var front, last := cs[..|cs| - 1], cs[|cs| - 1];
    assert cs == front + [last];
    if c in front {
      var i :| 0 <= i < |front| && front[i] == c;
      assert cs[i].id != cs[|cs| - 1].id;
      DeclaredCategoryStored(front, c);
    }
  }

  /** What an accepted driver stores: itself, its categories, and its devices behind the others, in the declared order
      and under the declared ids; nothing that was there changes. */
  lemma DriverStores(reg: Reg, declared: Declaration)
    requires Listed(reg) && RegisterDriver(reg, declared).Some?
    ensures var after := RegisterDriver(reg, declared).value;
      && after.rooms == reg.rooms && after.alerts == reg.alerts
      && after.drivers == reg.drivers[declared.driver.kind := declared.driver]
      && (forall c <- reg.categories :: c in after.categories && after.categories[c] == reg.categories[c])
      && (forall c <- declared.categories ::
            && c.id.Some? && c.title.Some? && c.icon.Some? && c.homeOnly.Some? && c.id.value in after.categories
            && after.categories[c.id.value] == Category(c.id.value, c.title.value, c.icon.value, c.homeOnly.value))
      && |after.order| == |reg.order| + |declared.devices| && reg.order <= after.order
      && (forall i :: 0 <= i < |declared.devices| ==>
            && declared.devices[i].id == Some(after.order[|reg.order| + i])
            && after.order[|reg.order| + i] in after.devices
            && after.devices[after.order[|reg.order| + i]] ==
               declared.devices[i].device.(id := after.order[|reg.order| + i], kind := declared.driver.kind))
      && (forall id <- reg.devices :: id in after.devices && after.devices[id] == reg.devices[id])
  {
    RegisterDriverListed(reg, declared);
    var after := RegisterDriver(reg, declared).value;
    NewCategoriesIds(declared.categories);
    forall c <- declared.categories
      ensures c.id.Some? && c.title.Some? && c.icon.Some? && c.homeOnly.Some? && c.id.value in after.categories
      ensures after.categories[c.id.value] == Category(c.id.value, c.title.value, c.icon.value, c.homeOnly.value)
    {
      DeclaredCategoryStored(declared.categories, c);
    }
    DistinctDeclared(reg, declared);
    hide Registered, WithDevices;
    forall i | 0 <= i < |declared.devices|
      ensures declared.devices[i].id == Some(after.order[|reg.order| + i])
      ensures after.order[|reg.order| + i] in after.devices
      ensures after.devices[after.order[|reg.order| + i]] ==
               declared.devices[i].device.(id := after.order[|reg.order| + i], kind := declared.driver.kind)
    {
      DeclaredDeviceStored(reg, declared, i);
    }
    forall id <- reg.devices ensures id in after.devices && after.devices[id] == reg.devices[id] {
      RegisteredDevice(reg, declared, id);
    }
  }

  lemma DistinctDeclared(reg: Reg, declared: Declaration)
    requires DeclarationAcceptable(reg, declared)
    ensures forall d <- declared.devices :: d.id.Some?
    ensures forall i, j :: 0 <= i < j < |declared.devices| ==> declared.devices[i].id != declared.devices[j].id
  {
  }

  lemma DeclaredDeviceStored(reg: Reg, declared: Declaration, i: nat)
    requires DeclarationAcceptable(reg, declared) && i < |declared.devices|
    ensures var d, after := declared.devices[i], Registered(reg, declared).devices;
      && d.id.Some? && d.id.value in after
      && after[d.id.value] == d.device.(id := d.id.value, kind := declared.driver.kind)
  {
    DistinctDeclared(reg, declared);
    assert declared.devices[i] in declared.devices;
    WithDevicesStores(reg.(categories := reg.categories + NewCategories(declared.categories),
                           drivers := reg.drivers[declared.driver.kind := declared.driver]),
                      declared.driver, declared.devices, i);
  }
}
