/**
 * What holds of every reachable registry: its structure, and the well-formedness of each device.
 */
module Structure {
  import opened Wrappers
  import opened Devices
  import opened Registry
  import opened Operations
  import opened Scenes
  import opened Traces

  // ----- one device

  predicate BodyOk(b: Body) {
    match b
    case Light(power, brightness, lastNonZero, automation, _) =>
      && 1 <= lastNonZero <= 100
      && (brightness == 0 || brightness == lastNonZero)
      && (power ==> brightness >= 1)
      && 10 <= automation.thresholdLux <= 500
      && 5 <= automation.noPresenceDelaySeconds <= 600
    case Environment(_, _, _, _, _, _) => true
    case AirConditioner(brand, power, _, _, _, running, _) => brand in BRANDS && running == power
    case BathHeater(_, mode) => mode in BATH_MODES
    case Humidifier(_, target) => 35 <= target <= 75
    case DoorLock(locked, _, _, enabled, delay, autoLockAt) =>
      5 <= delay <= 60 && (autoLockAt.Some? ==> enabled && !locked)
    case Curtain(position, target, movement) =>
      0 <= position <= 100 && 0 <= target <= 100 && movement == Toward(position, target)
    case Plain => true
  }

  lemma FloorInRange(r: real, lo: int, hi: int)
    requires lo as real <= r <= hi as real
    ensures lo <= r.Floor <= hi
  {
  }

  lemma LightEffectOk(b: Body, action: string, p: Payload, now: int)
    requires b.Light? && BodyOk(b)
    ensures BodyOk(LightEffect(b, action, p, now).body) && LightEffect(b, action, p, now).body.Light?
  {
    var brightness := ReadNumber(Field(p, "brightness"), 0.0, 100.0);
    if brightness.InRange? { FloorInRange(brightness.value, 0, 100); }
    var threshold := ReadNumber(Field(p, "illuminanceThresholdLux"), 10.0, 500.0);
    if threshold.InRange? { FloorInRange(threshold.value, 10, 500); }
    var delay := ReadNumber(Field(p, "noPresenceDelaySeconds"), 5.0, 600.0);
    if delay.InRange? { FloorInRange(delay.value, 5, 600); }
  }

  lemma HumidifierEffectOk(b: Body, action: string, p: Payload)
    requires b.Humidifier? && BodyOk(b)
    ensures BodyOk(HumidifierEffect(b, action, p).body) && HumidifierEffect(b, action, p).body.Humidifier?
  {
    var target := ReadNumber(Field(p, "targetHumidityPercent"), 35.0, 75.0);
    if target.InRange? { assert 35 <= RoundHalfEven(target.value) <= 75; }
  }

  lemma AirConditionerEffectOk(b: Body, action: string, p: Payload)
    requires b.AirConditioner? && BodyOk(b)
    ensures BodyOk(AirConditionerEffect(b, action, p).body)
    ensures AirConditionerEffect(b, action, p).body.AirConditioner?
  {
    hide AdapterAccepts;
  }

  lemma BodyEffectOk(b: Body, action: string, p: Payload, now: int)
    requires BodyOk(b)
    ensures BodyOk(BodyEffect(b, action, p, now).body)
    ensures FamilyOf(BodyEffect(b, action, p, now).body) == FamilyOf(b)
  {
    hide LightEffect, HumidifierEffect, AirConditionerEffect;
    match b
    case Light(_, _, _, _, _) => LightEffectOk(b, action, p, now);
    case Humidifier(_, _) => HumidifierEffectOk(b, action, p);
    case AirConditioner(_, _, _, _, _, _, _) => AirConditionerEffectOk(b, action, p);
    case _ =>
  }

  lemma BodyTickOk(b: Body, online: bool, now: int, around: Surroundings, w: Weather)
    requires BodyOk(b)
    ensures BodyOk(BodyTick(b, online, now, around, w).body)
    ensures FamilyOf(BodyTick(b, online, now, around, w).body) == FamilyOf(b)
  {
  }

  /** The fields no act ever changes. */
  predicate SameIdentity(d: Device, e: Device) {
    && d.id == e.id && d.name == e.name && d.roomId == e.roomId && d.kind == e.kind
    && d.categoryId == e.categoryId && d.removable == e.removable && d.capabilities == e.capabilities
    && FamilyOf(d.body) == FamilyOf(e.body)
  }

  lemma FaultedOk(d: Device, f: Faults, now: int)
    requires BodyOk(d.body)
    ensures BodyOk(Faulted(d, f, now).body) && SameIdentity(d, Faulted(d, f, now))
  {
  }

  lemma InjectedOk(d: Device, r: Readings, now: int)
    requires d.body.Environment?
    ensures BodyOk(Injected(d, r, now).body) && SameIdentity(d, Injected(d, r, now))
  {
  }

  lemma DoOk(d: Device, act: Act)
    requires BodyOk(d.body)
    ensures BodyOk(Do(d, act).body) && SameIdentity(d, Do(d, act))
  {
    hide BodyEffect, BodyTick, Obstacle, Faulted, Injected;
    match act
    case CommandAct(action, payload, expected, now) => BodyEffectOk(d.body, action, payload, now);
    case TickAct(now, around, weather) => BodyTickOk(d.body, d.online, now, around, weather);
    case FaultAct(faults, now) => FaultedOk(d, faults, now);
    case InjectAct(readings, now) =>
      if d.body.Environment? {
        InjectedOk(d, readings, now);
      }
  }

  lemma {:induction false} DoAllOk(d: Device, acts: seq<Act>)
    requires BodyOk(d.body)
    ensures BodyOk(DoAll(d, acts).body) && SameIdentity(d, DoAll(d, acts))
    decreases |acts|
  {
    if acts != [] {
      DoAllOk(d, acts[..|acts| - 1]);
      DoOk(DoAll(d, acts[..|acts| - 1]), acts[|acts| - 1]);
    }
  }

  // ----- the registry

  function BuiltinFamily(kind: string): Option<Family> {
    match kind
    case "light" => Some(LightFamily)
    case "environment" => Some(EnvironmentFamily)
    case "airConditioner" => Some(AirConditionerFamily)
    case "bathHeater" => Some(BathHeaterFamily)
    case "humidifier" => Some(HumidifierFamily)
    case "doorLock" => Some(DoorLockFamily)
    case "curtain" => Some(CurtainFamily)
    case _ => None
  }

  const BUILTIN_KINDS: set<string> :=
    {"light", "environment", "airConditioner", "bathHeater", "humidifier", "doorLock", "curtain"}

  ghost predicate DeviceFits(reg: Reg, id: string)
    requires id in reg.devices
  {
    var d := reg.devices[id];
    && d.id == id
    && d.kind in reg.drivers
    && FamilyOf(d.body) == reg.drivers[d.kind].family
    && (reg.drivers[d.kind].requiresCategory ==> d.categoryId.Some?)
    && (d.categoryId.Some? ==> d.categoryId.value in reg.categories)
    && BodyOk(d.body)
  }

  ghost predicate TablesFit(reg: Reg) {
    && (forall k <- reg.drivers :: reg.drivers[k].kind == k)
    && (forall c <- reg.categories :: reg.categories[c].id == c)
    && (forall r, s :: r in reg.rooms && s in reg.rooms && r != s ==> reg.rooms[r].name != reg.rooms[s].name)
  }

  ghost predicate BuiltinTables(reg: Reg) {
    && {"lighting", "environment"} <= reg.categories.Keys
    && (forall k <- BUILTIN_KINDS :: k in reg.drivers && Some(reg.drivers[k].family) == BuiltinFamily(k))
  }

  ghost predicate HomeDevices(reg: Reg) {
    && "light-living-01" in reg.devices && reg.devices["light-living-01"].kind == "light"
    && "ac-living-01" in reg.devices && reg.devices["ac-living-01"].kind == "airConditioner"
    && "door-entry-01" in reg.devices && reg.devices["door-entry-01"].kind == "doorLock"
    && !reg.devices["light-living-01"].removable && !reg.devices["ac-living-01"].removable
    && !reg.devices["door-entry-01"].removable
  }

  /** Keys are ids, types have drivers, declared categories are registered, room names differ. */
  ghost predicate RegCore(reg: Reg) {
    && Listed(reg)
    && TablesFit(reg)
    && (forall id <- reg.devices :: DeviceFits(reg, id))
  }

  /** A registry that started with the default drivers. */
  ghost predicate RegOk(reg: Reg) {
    RegCore(reg) && BuiltinTables(reg) && HomeDevices(reg)
  }

  /** What register_driver takes on trust from a driver: its devices are of its own family, are in
      order, and name no category that the driver's devices are not asked to register. */
  predicate SoundDeclaration(reg: Reg, declared: Declaration) {
    forall d <- declared.devices ::
      && FamilyOf(d.device.body) == declared.driver.family
      && BodyOk(d.device.body)
      && (d.device.categoryId.Some? ==>
            d.device.categoryId.value in reg.categories.Keys + NewCategories(declared.categories).Keys)
  }

  predicate SoundOp(reg: Reg, op: Op) {
    op.AddDriver? ==> SoundDeclaration(reg, op.declared)
  }

  lemma {:induction false} NewCategoriesIds(cs: seq<DeclaredCategory>)
    ensures forall c <- NewCategories(cs) :: NewCategories(cs)[c].id == c
    ensures forall c <- NewCategories(cs) :: exists d <- cs :: d.id == Some(c)
    decreases |cs|
  {
    if cs != [] {
      NewCategoriesIds(cs[..|cs| - 1]);
      forall c <- NewCategories(cs) ensures exists d <- cs :: d.id == Some(c) {
        if c in NewCategories(cs[..|cs| - 1]) {
          var d :| d in cs[..|cs| - 1] && d.id == Some(c);
          assert d in cs;
        } else {
          assert cs[|cs| - 1] in cs;
        }
      }
    }
  }

  /** A step that keeps the tables keeps every device that was there well formed. */
  lemma DeviceStaysOk(reg: Reg, op: Op, id: string)
    requires RegOk(reg) && id in reg.devices && id in Step(reg, op).devices
    ensures var d := Step(reg, op).devices[id];
      BodyOk(d.body) && SameIdentity(reg.devices[id], d)
  {
    hide ActsOf, Perform, Do, Registry.Execute;
    Projection(reg, op, id);
    assert DeviceFits(reg, id);
    DoAllOk(reg.devices[id], ActsOf(reg, op, id));
  }

  lemma AddDriverTables(reg: Reg, declared: Declaration)
    requires Listed(reg) && TablesFit(reg) && DeclarationAcceptable(reg, declared)
    ensures TablesFit(Registered(reg, declared))
  {
    hide Registered;
    RegisterDriverListed(reg, declared);
    NewCategoriesIds(declared.categories);
  }

  lemma AddDriverDevice(reg: Reg, declared: Declaration, id: string)
    requires RegCore(reg) && DeclarationAcceptable(reg, declared) && SoundDeclaration(reg, declared)
    requires id in Registered(reg, declared).devices
    ensures DeviceFits(Registered(reg, declared), id)
  {
    hide Registered, DeclarationAcceptable, BodyOk;
    var after := Registered(reg, declared);
    RegisterDriverListed(reg, declared);
    RegisteredDevice(reg, declared, id);
    if id in reg.devices {
      assert DeviceFits(reg, id);
      assert reg.devices[id].kind != declared.driver.kind by { FreshKind(reg, declared); }
    } else {
      var d :| d in declared.devices && d.id == Some(id)
               && after.devices[id] == StoredDevice(declared.driver, d);
      DeclaredDeviceFacts(reg, declared, d);
    }
  }

  lemma FreshKind(reg: Reg, declared: Declaration)
    requires DeclarationAcceptable(reg, declared)
    ensures declared.driver.kind !in reg.drivers
  {
  }

  lemma DeclaredDeviceFacts(reg: Reg, declared: Declaration, d: DeclaredDevice)
    requires DeclarationAcceptable(reg, declared) && d in declared.devices
    ensures d.kind == Some(declared.driver.kind)
    ensures declared.driver.requiresCategory ==> d.device.categoryId.Some?
  {
  }

  lemma AddDriverCore(reg: Reg, declared: Declaration)
    requires RegCore(reg) && DeclarationAcceptable(reg, declared) && SoundDeclaration(reg, declared)
    ensures RegCore(Registered(reg, declared))
  {
    hide Registered, DeclarationAcceptable, DeviceFits, TablesFit;
    var after := Registered(reg, declared);
    RegisterDriverListed(reg, declared);
    AddDriverTables(reg, declared);
    forall id <- after.devices ensures DeviceFits(after, id) { AddDriverDevice(reg, declared, id); }
  }

  lemma AddDriverBuiltins(reg: Reg, declared: Declaration)
    requires Listed(reg) && BuiltinTables(reg) && DeclarationAcceptable(reg, declared)
    ensures BuiltinTables(Registered(reg, declared))
  {
    FreshKind(reg, declared);
    hide Registered, DeclarationAcceptable, Listed;
    RegisterDriverListed(reg, declared);
  }

  lemma AddDriverHome(reg: Reg, declared: Declaration)
    requires HomeDevices(reg) && DeclarationAcceptable(reg, declared)
    ensures HomeDevices(Registered(reg, declared))
  {
    hide Registered, DeclarationAcceptable;
    RegisteredDevice(reg, declared, "light-living-01");
    RegisteredDevice(reg, declared, "ac-living-01");
    RegisteredDevice(reg, declared, "door-entry-01");
  }

  lemma AddDriverOk(reg: Reg, declared: Declaration)
    requires RegOk(reg) && DeclarationAcceptable(reg, declared) && SoundDeclaration(reg, declared)
    ensures RegOk(Registered(reg, declared))
  {
    AddDriverCore(reg, declared);
    AddDriverBuiltins(reg, declared);
    AddDriverHome(reg, declared);
  }

  lemma AttestedOk(f: Family, categoryId: string, capabilities: set<string>)
    requires Attested(f, categoryId, capabilities).Some?
    ensures var b := Attested(f, categoryId, capabilities).value;
            BodyOk(b) && FamilyOf(b) == f && categoryId in {"lighting", "environment"}
  {
  }

  lemma RegisterOk(reg: Reg, r: Registration, now: int)
    requires RegOk(reg)
    ensures RegOk(RegisterProvisioned(reg, r, now).reg)
  {
    hide Attested, BodyOk, PublicView, Elements;
    var after := RegisterProvisioned(reg, r, now).reg;
    if after != reg {
      var family := reg.drivers[r.kind].family;
      AttestedOk(family, r.categoryId, Elements(r.capabilities));
      forall id <- after.devices ensures DeviceFits(after, id) {
        if id != r.deviceId { assert DeviceFits(reg, id); }
        else { CategoriesOfProvisioned(reg, r.categoryId); }
      }
    }
  }

  /** Both category ids the drivers accept for provisioned devices are registered. */
  lemma CategoriesOfProvisioned(reg: Reg, c: string)
    requires RegOk(reg)
    ensures (c == "lighting" || c == "environment") ==> c in reg.categories
  {
  }

  /** Operations that leave the tables and the set of devices alone. */
  lemma QuietStepOk(reg: Reg, op: Op)
    requires RegOk(reg)
    requires op.Command? || op.TickAll? || op.Fault? || op.Inject? || op.Drain?
    ensures RegOk(Step(reg, op))
  {
    var after := Step(reg, op);
    StepListed(reg, op);
    QuietStepTables(reg, op);
    forall id <- after.devices ensures DeviceFits(after, id) {
      assert id in after.devices.Keys;
      assert DeviceFits(reg, id);
      DeviceStaysOk(reg, op, id);
    }
    forall id | id in {"light-living-01", "ac-living-01", "door-entry-01"}
      ensures id in after.devices && SameIdentity(reg.devices[id], after.devices[id])
    {
      assert id in after.devices.Keys;
      assert DeviceFits(reg, id);
      DeviceStaysOk(reg, op, id);
    }
  }

  lemma QuietStepTables(reg: Reg, op: Op)
    requires Listed(reg)
    requires op.Command? || op.TickAll? || op.Fault? || op.Inject? || op.Drain?
    ensures var after := Step(reg, op);
      after == reg.(devices := after.devices, alerts := after.alerts)
      && after.devices.Keys == reg.devices.Keys
  {
    match op
    case Command(target, action, payload, expected, now) =>
      ExecuteListed(reg, target, action, payload, expected, now);
    case TickAll(now, forecast) => TickListed(reg, now, forecast);
    case _ =>
  }

  lemma RemoveOk(reg: Reg, id: string)
    requires RegOk(reg)
    ensures RegOk(RemoveProvisioned(reg, id).reg)
  {
    RemoveListed(reg, id);
    var after := RemoveProvisioned(reg, id).reg;
    forall x <- after.devices ensures DeviceFits(after, x) { assert DeviceFits(reg, x); }
  }

  lemma NewRoomOk(reg: Reg, roomId: string, name: string)
    requires RegOk(reg)
    ensures RegOk(CreateRoom(reg, roomId, name).reg)
  {
    var after := CreateRoom(reg, roomId, name).reg;
    if after != reg {
      forall r <- reg.rooms ensures reg.rooms[r].name != name { assert reg.rooms[r] in reg.rooms.Values; }
      forall x <- after.devices ensures DeviceFits(after, x) { assert DeviceFits(reg, x); }
    }
  }

  /** The registry's structure survives every operation. */
  lemma StepOk(reg: Reg, op: Op)
    requires RegOk(reg) && SoundOp(reg, op)
    ensures RegOk(Step(reg, op))
  {
    hide RegOk;
    match op
    case Register(registration, now) => RegisterOk(reg, registration, now);
    case Remove(id) => RemoveOk(reg, id);
    case NewRoom(roomId, name) => NewRoomOk(reg, roomId, name);
    case AddDriver(declared) =>
      if DeclarationAcceptable(reg, declared) { AddDriverOk(reg, declared); }
    case _ => QuietStepOk(reg, op);
  }

  lemma RegOkListed(reg: Reg)
    requires RegOk(reg)
    ensures Listed(reg)
  {
  }

  ghost predicate SoundRun(reg: Reg, ops: seq<Op>)
    requires Listed(reg)
  {
    forall n :: 0 <= n < |ops| ==> SoundOp(At(reg, ops, n), ops[n])
  }

  lemma {:induction false} RunOk(reg: Reg, ops: seq<Op>, n: nat)
    requires RegOk(reg) && SoundRun(reg, ops) && n <= |ops|
    ensures RegOk(At(reg, ops, n))
    decreases n
  {
    hide RegOk, Perform;
    if n == 0 {
      assert ops[..0] == [];
    } else {
      RunOk(reg, ops, n - 1);
      RegOkListed(reg);
      NextAt(reg, ops, n - 1);
      StepOk(At(reg, ops, n - 1), ops[n - 1]);
    }
  }
}
