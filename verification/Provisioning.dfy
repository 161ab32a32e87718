/** Adding and removing devices, rooms and drivers: what is refused, repeated, undone and kept. */
module Provisioning {
  import opened Lists
  import opened Wrappers
  import opened Devices
  import opened Registry
  import opened Operations
  import opened Scenes
  import opened Traces
  import opened Structure
  import opened Versions
  import opened Boot

  /** Each call leaves the registry as it was exactly when it is refused, or registers a device that is there. */
  lemma RefusalsChangeNothing(reg: Reg, r: Registration, roomId: string, name: string, id: string,
                              declared: Declaration, now: int)
    requires Listed(reg)
    ensures RegisterProvisioned(reg, r, now).reg == reg <==>
            RegisterProvisioned(reg, r, now).result.Err? || r.deviceId in reg.devices
    ensures CreateRoom(reg, roomId, name).reg == reg <==> CreateRoom(reg, roomId, name).result.Err?
    ensures RemoveProvisioned(reg, id).reg == reg <==> RemoveProvisioned(reg, id).result.Err?
    ensures Step(reg, AddDriver(declared)) == reg <==> RegisterDriver(reg, declared).None?
    ensures var after := RegisterProvisioned(reg, r, now).reg;
      after != reg ==> r.deviceId !in reg.devices && after.devices - {r.deviceId} == reg.devices
    ensures var after := RemoveProvisioned(reg, id).reg;
      after != reg ==> id in reg.devices && reg.devices[id].removable && after.devices == reg.devices - {id}
    ensures var after := CreateRoom(reg, roomId, name).reg;
      after != reg ==> roomId !in reg.rooms && after.rooms - {roomId} == reg.rooms
  {
    hide Attested, Execute;
    DriverChanges(reg, declared);
    RegistrationChanges(reg, r, now);
    RoomAndRemovalChange(reg, roomId, name, id);
  }

  lemma DriverChanges(reg: Reg, declared: Declaration)
    requires Listed(reg)
    ensures Step(reg, AddDriver(declared)) == reg <==> RegisterDriver(reg, declared).None?
  {
    hide DeclarationAcceptable, Registered;
    if DeclarationAcceptable(reg, declared) {
      RegisterDriverListed(reg, declared);
      FreshKind(reg, declared);
    }
  }

  lemma RegistrationChanges(reg: Reg, r: Registration, now: int)
    requires Listed(reg)
    ensures var c := RegisterProvisioned(reg, r, now);
      && (c.reg == reg <==> c.result.Err? || r.deviceId in reg.devices)
      && (c.reg != reg ==> r.deviceId !in reg.devices && c.reg.devices - {r.deviceId} == reg.devices)
  {
    hide Attested, NewDevice, PublicView;
    var after := RegisterProvisioned(reg, r, now).reg;
    assert r.deviceId !in reg.devices ==> after.devices == reg.devices || r.deviceId in after.devices;
  }

  lemma RoomAndRemovalChange(reg: Reg, roomId: string, name: string, id: string)
    requires Listed(reg)
    ensures var c := CreateRoom(reg, roomId, name);
      && (c.reg == reg <==> c.result.Err?)
      && (c.reg != reg ==> roomId !in reg.rooms && c.reg.rooms - {roomId} == reg.rooms)
    ensures var c := RemoveProvisioned(reg, id);
      && (c.reg == reg <==> c.result.Err?)
      && (c.reg != reg ==> id in reg.devices && reg.devices[id].removable && c.reg.devices == reg.devices - {id})
  {
    hide Without, PublicView;
    assert CreateRoom(reg, roomId, name).result.Ok? ==> roomId in CreateRoom(reg, roomId, name).reg.rooms;
    assert RemoveProvisioned(reg, id).result.Ok? ==> id !in RemoveProvisioned(reg, id).reg.devices;
  }

  /** A successful registration of a new device, taken back, leaves the registry as it was: devices,
      order and all. */
  lemma RegisterThenRemove(reg: Reg, r: Registration, now: int)
    requires Listed(reg) && r.deviceId !in reg.devices
    requires RegisterProvisioned(reg, r, now).result.Ok?
    ensures RemoveProvisioned(RegisterProvisioned(reg, r, now).reg, r.deviceId).result.Ok?
    ensures RemoveProvisioned(RegisterProvisioned(reg, r, now).reg, r.deviceId).reg == reg
  {
    var after := RegisterProvisioned(reg, r, now).reg;
    WithoutAppended(reg.order, r.deviceId);
    assert after.devices - {r.deviceId} == reg.devices;
  }

  /** A registration depends on the registry only through its rooms and drivers, and the same
      declaration is accepted again as long as they are there. */
  lemma AcceptedAgain(reg: Reg, after: Reg, r: Registration, now: int, later: int)
    requires RegisterProvisioned(reg, r, now).result.Ok?
    requires r.roomId in after.rooms && r.roomId in reg.rooms && after.rooms[r.roomId] == reg.rooms[r.roomId]
    requires r.kind in after.drivers && r.kind in reg.drivers && after.drivers[r.kind] == reg.drivers[r.kind]
    requires r.deviceId in after.devices && SameRegistration(after.devices[r.deviceId], r)
    ensures RegisterProvisioned(after, r, later) == Changed(after, Ok(Public(after, r.deviceId)))
  {
  }

  lemma RoomsAndDriversStay(reg: Reg, op: Op, room: string, kind: string)
    requires Listed(reg)
    ensures room in reg.rooms ==> room in Step(reg, op).rooms && Step(reg, op).rooms[room] == reg.rooms[room]
    ensures kind in reg.drivers ==> kind in Step(reg, op).drivers && Step(reg, op).drivers[kind] == reg.drivers[kind]
  {
    match op
    case Command(target, action, payload, expected, now) =>
      ExecuteListed(reg, target, action, payload, expected, now);
    case TickAll(now, forecast) => TickListed(reg, now, forecast);
    case AddDriver(declared) =>
      if DeclarationAcceptable(reg, declared) { RegisterDriverListed(reg, declared); }
    case _ =>
  }

  lemma {:induction false} RoomsAndDriversStayInRun(
    reg: Reg, ops: seq<Op>, lo: nat, hi: nat, room: string, kind: string)
    requires Listed(reg) && lo <= hi <= |ops|
    requires room in At(reg, ops, lo).rooms && kind in At(reg, ops, lo).drivers
    ensures room in At(reg, ops, hi).rooms && At(reg, ops, hi).rooms[room] == At(reg, ops, lo).rooms[room]
    ensures kind in At(reg, ops, hi).drivers && At(reg, ops, hi).drivers[kind] == At(reg, ops, lo).drivers[kind]
    decreases hi
  {
    hide Step, Perform, At;
    if lo != hi {
      RoomsAndDriversStayInRun(reg, ops, lo, hi - 1, room, kind);
      NextAt(reg, ops, hi - 1);
      RoomsAndDriversStay(At(reg, ops, hi - 1), ops[hi - 1], room, kind);
    }
  }

  /** A first registration of a device. */
  ghost predicate Registers(reg: Reg, op: Op) {
    op.Register? && op.registration.deviceId !in reg.devices
    && RegisterProvisioned(reg, op.registration, op.now).result.Ok?
  }

  lemma RegisteredFits(reg: Reg, op: Op)
    requires Listed(reg) && Registers(reg, op)
    ensures var r := op.registration; var after := Step(reg, op);
      && r.deviceId in after.devices && SameRegistration(after.devices[r.deviceId], r)
      && r.roomId in reg.rooms && r.kind in reg.drivers
  {
  }

  lemma {:induction false} IdentityStays(reg: Reg, ops: seq<Op>, lo: nat, hi: nat, id: string)
    requires RegOk(reg) && SoundRun(reg, ops) && lo <= hi <= |ops| && Present(reg, ops, lo, hi, id)
    ensures id in At(reg, ops, lo).devices && id in At(reg, ops, hi).devices
    ensures SameIdentity(At(reg, ops, lo).devices[id], At(reg, ops, hi).devices[id])
  {
    RunOk(reg, ops, lo);
    assert DeviceFits(At(reg, ops, lo), id);
    RegOkListed(reg);
    hide At, RegOk, SoundRun;
    TraceOfRun(reg, ops, lo, hi, id);
    assert id in At(reg, ops, lo).devices && id in At(reg, ops, hi).devices;
    hide Trace;
    DoAllOk(At(reg, ops, lo).devices[id], Trace(reg, ops, lo, hi, id));
  }

  /** Registering the same declaration again, at any later moment of the same incarnation and after
      any commands to the device, changes nothing and returns the current view. */
  lemma ReRegistration(reg: Reg, ops: seq<Op>, i: nat, n: nat, later: int)
    requires RegOk(reg) && SoundRun(reg, ops) && i < n <= |ops| && Registers(At(reg, ops, i), ops[i])
    requires Present(reg, ops, i + 1, n, ops[i].registration.deviceId)
    ensures var r := ops[i].registration; var now := At(reg, ops, n);
      r.deviceId in now.devices
      && RegisterProvisioned(now, r, later) == Changed(now, Ok(Public(now, r.deviceId)))
  {
    var r := ops[i].registration;
    var before := At(reg, ops, i);
    NextAt(reg, ops, i);
    RegisteredFits(before, ops[i]);
    RegOkListed(reg);
    IdentityStays(reg, ops, i + 1, n, r.deviceId);
    hide At, Step, RegOk, SoundRun, Registers;
    RoomsAndDriversStayInRun(reg, ops, i, n, r.roomId, r.kind);
    assert RegisterProvisioned(before, r, ops[i].now).result.Ok? by { RegistersMeans(before, ops[i]); }
    AcceptedAgain(before, At(reg, ops, n), r, ops[i].now, later);
  }

  lemma RegistersMeans(reg: Reg, op: Op)
    requires Registers(reg, op)
    ensures RegisterProvisioned(reg, op.registration, op.now).result.Ok?
  {
  }

  /** No operation takes away a device that is not removable, or makes it removable. */
  lemma BuiltinStays(reg: Reg, op: Op, id: string)
    requires RegOk(reg) && SoundOp(reg, op) && id in reg.devices && !reg.devices[id].removable
    ensures id in Step(reg, op).devices
    ensures SameIdentity(reg.devices[id], Step(reg, op).devices[id])
  {
    assert id in Step(reg, op).devices by { BuiltinThere(reg, op, id); }
    hide Step, Perform;
    DeviceStaysOk(reg, op, id);
  }

  lemma BuiltinThere(reg: Reg, op: Op, id: string)
    requires Listed(reg) && id in reg.devices && !reg.devices[id].removable
    ensures id in Step(reg, op).devices
  {
    match op
    case Command(_, _, _, _, _) => QuietStepTables(reg, op); assert id in reg.devices.Keys;
    case TickAll(_, _) => QuietStepTables(reg, op); assert id in reg.devices.Keys;
    case AddDriver(declared) =>
      if DeclarationAcceptable(reg, declared) { RegisteredDevice(reg, declared, id); }
    case _ =>
  }

  lemma AtStart(reg: Reg, ops: seq<Op>)
    requires Listed(reg)
    ensures At(reg, ops, 0) == reg
  {
  }

  lemma {:induction false} BuiltinsStayInRun(reg: Reg, ops: seq<Op>, n: nat, id: string)
    requires RegOk(reg) && SoundRun(reg, ops) && n <= |ops| && id in reg.devices && !reg.devices[id].removable
    ensures id in At(reg, ops, n).devices && SameIdentity(reg.devices[id], At(reg, ops, n).devices[id])
    decreases n
  {
    hide At, Step, RegOk, Perform;
    RegOkListed(reg);
    if n == 0 {
      AtStart(reg, ops);
    } else {
      BuiltinsStayInRun(reg, ops, n - 1, id);
      RunOk(reg, ops, n - 1);
      NextAt(reg, ops, n - 1);
      BuiltinStays(At(reg, ops, n - 1), ops[n - 1], id);
    }
  }

  // ----- where declared categories come from

  ghost predicate CategoriesRegistered(reg: Reg) {
    forall id <- reg.devices :: reg.devices[id].categoryId.Some? ==>
      reg.devices[id].categoryId.value in reg.categories
  }

  /** public_device: None is the error of a category nobody registered. */
  function ViewOf(reg: Reg, id: string): Option<PublicDevice>
    requires id in reg.devices
  {
    var c := reg.devices[id].categoryId;
    if c.Some? && c.value !in reg.categories then None else Some(Public(reg, id))
  }

  /** Every device has a view exactly when the stored categories are registered. */
  lemma ViewsExist(reg: Reg)
    ensures (forall id <- reg.devices :: ViewOf(reg, id) == Some(Public(reg, id))) <==> CategoriesRegistered(reg)
  {
    hide PublicView;
    if forall id <- reg.devices :: ViewOf(reg, id) == Some(Public(reg, id)) {
      forall id <- reg.devices
        ensures reg.devices[id].categoryId.Some? ==> reg.devices[id].categoryId.value in reg.categories
      {
        assert ViewOf(reg, id) == Some(Public(reg, id));
      }
    }
  }

  /** public_device never fails: at every moment of a run every device has its view. */
  lemma ViewsExistInRun(reg: Reg, ops: seq<Op>, n: nat)
    requires RegOk(reg) && SoundRun(reg, ops) && n <= |ops|
    ensures CategoriesRegistered(At(reg, ops, n))
    ensures forall id <- At(reg, ops, n).devices :: ViewOf(At(reg, ops, n), id) == Some(Public(At(reg, ops, n), id))
  {
    RunOk(reg, ops, n);
    hide At, ViewOf, Public;
    forall id <- At(reg, ops, n).devices
      ensures var d := At(reg, ops, n).devices[id];
              d.categoryId.Some? ==> d.categoryId.value in At(reg, ops, n).categories
    {
      assert DeviceFits(At(reg, ops, n), id);
    }
    ViewsExist(At(reg, ops, n));
  }

  lemma DeclaredStored(reg: Reg, declared: Declaration, d: DeclaredDevice)
    requires DeclarationAcceptable(reg, declared) && d in declared.devices
    ensures var after := Registered(reg, declared);
            && d.id.Some? && d.id.value in after.devices
            && after.devices[d.id.value].categoryId == d.device.categoryId
            && (declared.driver.requiresCategory ==>
                  && d.device.categoryId.Some?
                  && d.device.categoryId.value in reg.categories.Keys + NewCategories(declared.categories).Keys)
  {
    hide Registered, CategoriesAcceptable, NewCategories;
    assert DeviceAcceptable(reg, reg.categories.Keys + NewCategories(declared.categories).Keys, declared.driver, d);
    BootStores(reg, declared, d);
  }

  /** The categories the declared devices name are registered or declared with them. */
  predicate NamesRegistered(reg: Reg, declared: Declaration) {
    forall d <- declared.devices :: d.device.categoryId.Some? ==>
      d.device.categoryId.value in reg.categories.Keys + NewCategories(declared.categories).Keys
  }

  lemma RegisteredTables(reg: Reg, declared: Declaration)
    requires Listed(reg) && DeclarationAcceptable(reg, declared)
    ensures Registered(reg, declared).categories.Keys ==
            reg.categories.Keys + NewCategories(declared.categories).Keys
  {
    hide Registered, DeclarationAcceptable;
    RegisterDriverListed(reg, declared);
  }

  lemma NamedBeforehand(reg: Reg, declared: Declaration)
    requires Listed(reg) && DeclarationAcceptable(reg, declared)
    requires CategoriesRegistered(Registered(reg, declared))
    ensures NamesRegistered(reg, declared)
  {
    hide Registered, DeclarationAcceptable, NewCategories, Listed;
    RegisteredTables(reg, declared);
    forall d <- declared.devices
      ensures d.device.categoryId.Some? ==>
                d.device.categoryId.value in reg.categories.Keys + NewCategories(declared.categories).Keys
    {
      DeclaredStored(reg, declared, d);
    }
  }

  lemma AllRegistered(reg: Reg, declared: Declaration)
    requires Listed(reg) && CategoriesRegistered(reg) && DeclarationAcceptable(reg, declared)
    requires NamesRegistered(reg, declared)
    ensures CategoriesRegistered(Registered(reg, declared))
  {
    hide Registered, DeclarationAcceptable, NewCategories, Listed;
    RegisteredTables(reg, declared);
    var after := Registered(reg, declared);
    forall id <- after.devices
      ensures after.devices[id].categoryId.Some? ==> after.devices[id].categoryId.value in after.categories
    {
      RegisteredDevice(reg, declared, id);
      if id in reg.devices && reg.devices[id].categoryId.Some? {
        assert reg.devices[id].categoryId.value in after.categories.Keys;
      }
    }
  }

  /** register_driver checks the category of a device only for drivers that ask for one; the rest may
      name a category nobody registered, and the lookup of that category then fails. */
  lemma CategoryGap(reg: Reg, declared: Declaration)
    requires Listed(reg) && CategoriesRegistered(reg) && DeclarationAcceptable(reg, declared)
    ensures CategoriesRegistered(Registered(reg, declared)) <==>
            declared.driver.requiresCategory || NamesRegistered(reg, declared)
  {
    hide Registered, DeclarationAcceptable, NewCategories, Listed, CategoriesRegistered;
    forall d <- declared.devices
      ensures declared.driver.requiresCategory ==>
                && d.device.categoryId.Some?
                && d.device.categoryId.value in reg.categories.Keys + NewCategories(declared.categories).Keys
    {
      DeclaredStored(reg, declared, d);
    }
    if CategoriesRegistered(Registered(reg, declared)) {
      NamedBeforehand(reg, declared);
    }
    if NamesRegistered(reg, declared) {
      AllRegistered(reg, declared);
    }
  }

  /** Such a driver exists. */
  lemma CategoryGapExample(now: int)
    ensures var d := Declare("lamp-1", "lamp", "living", "lamp", Some("nowhere"), now, Plain);
            var declared := Declaration(Driver("lamp", PlainFamily, false), [], [d]);
      && DeclarationAcceptable(EMPTY, declared) && CategoriesRegistered(EMPTY)
      && !CategoriesRegistered(Registered(EMPTY, declared))
      && "lamp-1" in Registered(EMPTY, declared).devices && ViewOf(Registered(EMPTY, declared), "lamp-1").None?
  {
    var d := Declare("lamp-1", "lamp", "living", "lamp", Some("nowhere"), now, Plain);
    var declared := Declaration(Driver("lamp", PlainFamily, false), [], [d]);
    assert d in declared.devices;
    assert DeclarationAcceptable(EMPTY, declared);
    assert NewCategories([]) == map[];
    CategoryGap(EMPTY, declared);
    DeclaredStored(EMPTY, declared, d);
    RegisteredTables(EMPTY, declared);
    assert "nowhere" !in Registered(EMPTY, declared).categories.Keys;
  }
}
