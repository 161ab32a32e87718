/**
 * Whether the client can read the gateway's snapshot: the client throws the whole snapshot away when it
 * cannot read one device of a built-in type.  Over every run of validated requests that happens exactly
 * when an air conditioner has kept an argument it refused.
 */
module SnapshotRuns {
  import opened Wrappers
  import opened Devices
  import opened Registry
  import opened Operations
  import opened Scenes
  import opened Traces
  import opened Structure
  import opened Boot
  import opened Versions
  import opened RoomClimate
  import opened WireFormat
  import DeviceCodec
  import DeviceParser

  // ----- one snapshot

  function Entries(reg: Reg, texts: Texts): seq<DeviceCodec.Json>
    requires forall id <- reg.order :: id in reg.devices
  {
    seq(|reg.order|,
        i requires 0 <= i < |reg.order| => DeviceCodec.Record(Wire(Public(reg, reg.order[i]), texts)))
  }

  /** The client's parseDevices throws on the snapshot. */
  ghost predicate Throws(reg: Reg, texts: Texts)
    requires Listed(reg)
  {
    exists i :: 0 <= i < |reg.order| && DeviceParser.Spoils(Entries(reg, texts)[i])
  }

  /** A device of a built-in type that the client can read, but for the size of its version. */
  predicate Showable(d: Device) {
    d.id != "" && d.name != "" && d.roomId != "" && 0 <= d.stateVersion && BodyReadable(d.body)
  }

  predicate BuiltinDevice(d: Device) {
    d.kind in DeviceCodec.BUILTIN_TYPES
  }

  ghost predicate AllShowable(reg: Reg) {
    forall id <- reg.devices :: BuiltinDevice(reg.devices[id]) ==> Showable(reg.devices[id])
  }

  /** No version has outgrown the integers of the client. */
  ghost predicate VersionsFit(reg: Reg) {
    forall id <- reg.devices ::
      BuiltinDevice(reg.devices[id]) ==> reg.devices[id].stateVersion <= DeviceCodec.MAX_SAFE_INTEGER
  }

  lemma EntryType(v: PublicDevice, texts: Texts)
    ensures DeviceCodec.Get(Wire(v, texts), "type") == DeviceCodec.Text(v.kind)
  {
    hide Wire, Common;
    KeepsCommon(v, texts);
    CommonFacts(v, texts);
  }

  lemma EntrySpoils(reg: Reg, id: string, texts: Texts)
    requires RegOk(reg) && TextsOk(texts) && id in reg.devices
    ensures var d := reg.devices[id];
      DeviceParser.Spoils(DeviceCodec.Record(Wire(Public(reg, id), texts))) <==>
        BuiltinDevice(d) && !(Showable(d) && d.stateVersion <= DeviceCodec.MAX_SAFE_INTEGER)
  {
    var d, v := reg.devices[id], Public(reg, id);
    EntryType(v, texts);
    assert DeviceFits(reg, id);
    hide Wire, DeviceCodec.ParseDevice, ClientView, TextsOk, BodyOk, BodyReadable, Listed, TablesFit, HomeDevices;
    if BuiltinDevice(d) {
      ShownTheSame(d.body);
      assert d.kind in BUILTIN_KINDS;
      ViewParses(v, texts);
      BuiltinIsTyped(d);
    }
  }

  lemma ShownTheSame(b: Body)
    ensures BodyOk(Shown(b)) == BodyOk(b) && BodyReadable(Shown(b)) == BodyReadable(b)
    ensures FamilyOf(Shown(b)) == FamilyOf(b) && Typed(Shown(b)) == Typed(b)
  {
  }

  lemma BuiltinIsTyped(d: Device)
    requires BuiltinDevice(d) && BuiltinFamily(d.kind) == Some(FamilyOf(d.body))
    ensures Typed(d.body)
  {
  }

  /** The client throws a snapshot away exactly when some device of a built-in type is out of range. */
  lemma ThrowsExactly(reg: Reg, texts: Texts)
    requires RegOk(reg) && Listed(reg) && TextsOk(texts)
    ensures Throws(reg, texts) <==> !(AllShowable(reg) && VersionsFit(reg))
  {
    hide RegOk, TextsOk, Showable, BuiltinDevice, DeviceParser.Spoils, Wire;
    forall id <- reg.devices
      ensures var d := reg.devices[id];
        DeviceParser.Spoils(DeviceCodec.Record(Wire(Public(reg, id), texts))) <==>
          BuiltinDevice(d) && !(Showable(d) && d.stateVersion <= DeviceCodec.MAX_SAFE_INTEGER)
    {
      EntrySpoils(reg, id, texts);
    }
    if !(AllShowable(reg) && VersionsFit(reg)) {
      var id :| id in reg.devices && BuiltinDevice(reg.devices[id])
                && !(Showable(reg.devices[id]) && reg.devices[id].stateVersion <= DeviceCodec.MAX_SAFE_INTEGER);
      var i :| 0 <= i < |reg.order| && reg.order[i] == id;
      assert DeviceParser.Spoils(Entries(reg, texts)[i]);
    }
    if Throws(reg, texts) {
      var i :| 0 <= i < |reg.order| && DeviceParser.Spoils(Entries(reg, texts)[i]);
      assert reg.order[i] in reg.devices;
    }
  }

  // ----- requests that passed validation

  /** The sine waves and the noise of one tick. */
  predicate Seasonal(w: Weather) {
    && 23.6 <= w.ambientTemperature <= 24.4 && 53.5 <= w.ambientHumidity <= 56.5 && 40.0 <= w.lux <= 200.0
    && -0.02 <= w.temperatureNoise <= 0.02 && -0.05 <= w.humidityNoise <= 0.05
  }

  predicate Within(r: Option<real>, lo: real, hi: real) {
    r.Some? ==> lo <= r.value <= hi
  }

  predicate ValidReadings(r: Readings) {
    Within(r.temperature, -50.0, 80.0) && Within(r.humidity, 0.0, 100.0) && Within(r.lux, 0.0, 100_000.0)
  }

  predicate ValidFaults(f: Faults) {
    f.battery.Some? ==> 0 <= f.battery.value <= 100
  }

  /** The request models accept the operation; a command may still ask for anything. */
  predicate ValidOp(op: Op) {
    match op
    case Command(_, _, _, _, now) => now >= 0
    case TickAll(_, forecast) => forall id <- forecast :: Seasonal(forecast[id])
    case Fault(_, faults, _) => ValidFaults(faults)
    case Inject(readings, _) => ValidReadings(readings)
    case Register(r, _) => r.deviceId != "" && r.name != "" && r.roomId != ""
    case _ => true
  }

  // ----- one act

  predicate ValidAct(act: Act) {
    match act
    case CommandAct(_, _, _, now) => now >= 0
    case TickAct(_, around, weather) =>
      Seasonal(weather) && (around.cooling.Some? ==> 16 <= around.cooling.value.target <= 30)
    case FaultAct(faults, _) => ValidFaults(faults)
    case InjectAct(readings, _) => ValidReadings(readings)
  }

  lemma AirConditionerReadable(b: Body, action: string, p: Payload)
    requires b.AirConditioner? && BodyOk(b) && BodyReadable(b)
    ensures BodyReadable(AirConditionerEffect(b, action, p).body) <==>
            !(RefusedWrite(action, p) && WritesNews(b, action, p))
  {
  }

  lemma CommandReadable(b: Body, action: string, p: Payload, now: int)
    requires BodyOk(b) && BodyReadable(b) && now >= 0
    ensures BodyReadable(BodyEffect(b, action, p, now).body) <==>
            !(b.AirConditioner? && RefusedWrite(action, p) && WritesNews(b, action, p))
  {
    if b.AirConditioner? {
      hide AirConditionerEffect, RefusedWrite, WritesNews, BodyReadable, BodyOk;
      AirConditionerReadable(b, action, p);
    }
  }

  lemma SensorReadable(b: Body, online: bool, now: int, around: Surroundings, w: Weather)
    requires b.Environment? && BodyReadable(b) && Seasonal(w)
    requires around.cooling.Some? ==> 16 <= around.cooling.value.target <= 30
    ensures BodyReadable(EnvironmentTick(b, online, now, around, w).body)
  {
    var t, h := TargetTemperature(around, w), TargetHumidity(around, w);
    assert 16.0 <= t <= 30.0 && 50.0 <= h <= 56.5;
    assert -50.0 <= Drifted(b.temperature, t, 0.08, w.temperatureNoise) <= 80.0;
    assert 0.0 <= Drifted(b.humidity, h, 0.06, w.humidityNoise) <= 100.0;
  }

  lemma TickReadable(b: Body, online: bool, now: int, around: Surroundings, w: Weather)
    requires BodyOk(b) && BodyReadable(b) && Seasonal(w)
    requires around.cooling.Some? ==> 16 <= around.cooling.value.target <= 30
    ensures BodyReadable(BodyTick(b, online, now, around, w).body)
  {
    hide EnvironmentTick;
    if b.Environment? { SensorReadable(b, online, now, around, w); }
  }

  /** A readable device stays readable under every valid act but a silent write, which always ends it. */
  lemma ActReadable(d: Device, act: Act)
    requires BodyOk(d.body) && BodyReadable(d.body) && ValidAct(act)
    ensures BodyReadable(Do(d, act).body) <==> !SilentWrite(d, act)
  {
    hide BodyEffect, BodyTick, RefusedWrite, WritesNews, BodyOk;
    match act
    case CommandAct(action, payload, expected, now) => CommandReadable(d.body, action, payload, now);
    case TickAct(now, around, weather) => TickReadable(d.body, d.online, now, around, weather);
    case FaultAct(_, _) =>
    case InjectAct(_, _) =>
  }

  lemma {:induction false} ActsReadable(d: Device, acts: seq<Act>)
    requires BodyOk(d.body) && BodyReadable(d.body) && NoneSilent(d, acts)
    requires forall a <- acts :: ValidAct(a)
    ensures BodyReadable(DoAll(d, acts).body)
    decreases |acts|
  {
    hide Do, SilentWrite, ValidAct, BodyOk, BodyReadable;
    if acts != [] {
      var front, last := acts[..|acts| - 1], acts[|acts| - 1];
      assert forall k :: 0 <= k < |front| ==> front[..k] == acts[..k];
      ActsReadable(d, front);
      DoAllOk(d, front);
      assert last in acts;
      ActReadable(DoAll(d, front), last);
    }
  }

  // ----- one operation

  lemma {:induction false} ObeyActsValid(d: Device, orders: seq<Order>, now: int)
    requires now >= 0
    ensures forall a <- ObeyActs(d, orders, now) :: ValidAct(a)
    decreases |orders|
  {
    if orders != [] {
      var a := Commanded(d, orders[0].action, orders[0].payload, Some(d.stateVersion), now);
      hide Commanded;
      if a.error.None? { ObeyActsValid(a.device, orders[1..], now); }
    }
  }

  lemma CoolingInRange(reg: Reg, d: Device)
    requires RegOk(reg) && AllShowable(reg)
    ensures var c := SurroundingsOf(reg, d).cooling; c.Some? ==> 16 <= c.value.target <= 30
  {
    var first := FindFirst(reg.devices, reg.order, "airConditioner", Some(d.roomId));
    if first.Some? {
      assert BuiltinDevice(reg.devices[first.value]);
    }
  }

  lemma OperationActsValid(reg: Reg, op: Op, id: string)
    requires RegOk(reg) && Listed(reg) && AllShowable(reg) && ValidOp(op) && id in reg.devices
    ensures forall a <- ActsOf(reg, op, id) :: ValidAct(a)
  {
    hide RegOk, AllShowable, SurroundingsInTick, SurroundingsOf, FindFirst, Listed;
    match op
    case Command(target, action, _, _, now) =>
      ObeyActsValid(reg.devices[id], OrdersFor(AwayPlans(reg.devices, reg.order), id), now);
      ObeyActsValid(reg.devices[id], OrdersFor(HOME_PLANS, id), now);
    case TickAll(now, forecast) =>
      CoolingInTick(reg, TickOrder(reg), now, forecast, id);
      CoolingInRange(reg, reg.devices[id]);
    case _ =>
  }

  /** The operation leaves an argument out of range in an air conditioner. */
  predicate Blights(reg: Reg, op: Op) {
    SilentOp(reg, op) && BuiltinDevice(reg.devices[op.target])
  }

  lemma DeviceStaysShowable(reg: Reg, op: Op, id: string)
    requires RegOk(reg) && Listed(reg) && AllShowable(reg) && ValidOp(op)
    requires id in reg.devices && id in Step(reg, op).devices && BuiltinDevice(reg.devices[id])
    ensures BuiltinDevice(Step(reg, op).devices[id])
    ensures Showable(Step(reg, op).devices[id]) <==> !SilentlyWrites(reg, op, id)
  {
    assert DeviceFits(reg, id);
    assert Showable(reg.devices[id]);
    hide RegOk, AllShowable, Listed, Step, Perform, ActsOf, BodyOk, BodyReadable, DeviceFits, ValidOp;
    var d, acts := reg.devices[id], ActsOf(reg, op, id);
    OperationActsValid(reg, op, id);
    Projection(reg, op, id);
    DeviceStaysOk(reg, op, id);
    StepMonotone(reg, op, id);
    if SilentlyWrites(reg, op, id) {
      SilentActIs(reg, op, id);
      DoOne(d, acts[0]);
      assert acts[0] in acts;
      ActReadable(d, acts[0]);
    } else {
      ActsOfSilent(reg, op, id);
      ActsReadable(d, acts);
    }
  }

  lemma SilentActIs(reg: Reg, op: Op, id: string)
    requires Listed(reg) && id in reg.devices && SilentlyWrites(reg, op, id)
    ensures ActsOf(reg, op, id) == [CommandAct(op.action, op.payload, op.expected, op.now)]
    ensures SilentWrite(reg.devices[id], CommandAct(op.action, op.payload, op.expected, op.now))
  {
    hide SilentWrite;
  }

  lemma RegisteredShowable(reg: Reg, r: Registration, now: int)
    requires r.deviceId != "" && r.name != "" && r.roomId != "" && r.deviceId !in reg.devices
    ensures var after := RegisterProvisioned(reg, r, now).reg;
      r.deviceId in after.devices ==> Showable(after.devices[r.deviceId])
    ensures forall id <- RegisterProvisioned(reg, r, now).reg.devices :: id in reg.devices || id == r.deviceId
  {
    hide PublicView, Elements;
  }

  /** A driver cannot be registered for a type that has one, so it declares no device of a built-in type. */
  lemma DeclaredNotBuiltin(reg: Reg, declared: Declaration, id: string)
    requires BuiltinTables(reg) && DeclarationAcceptable(reg, declared)
    requires id !in reg.devices && id in Registered(reg, declared).devices
    ensures !BuiltinDevice(Registered(reg, declared).devices[id])
  {
    FreshKind(reg, declared);
    assert declared.driver.kind !in BUILTIN_KINDS;
    hide Registered, DeclarationAcceptable, BuiltinTables;
    RegisteredDevice(reg, declared, id);
  }

  /** A device that an operation adds is readable when it is of a built-in type. */
  lemma NewDeviceShowable(reg: Reg, op: Op, id: string)
    requires RegOk(reg) && Listed(reg) && ValidOp(op)
    requires id !in reg.devices && id in Step(reg, op).devices
    ensures BuiltinDevice(Step(reg, op).devices[id]) ==> Showable(Step(reg, op).devices[id])
  {
    hide RegCore, BuiltinTables, HomeDevices, Listed, RegisterProvisioned, Registered, DeclarationAcceptable, Showable,
         BuiltinDevice;
    match op
    case Register(r, now) =>
      if r.deviceId !in reg.devices {
        RegisteredShowable(reg, r, now);
      } else {
        RegisteredBefore(reg, r, now);
      }
    case AddDriver(declared) =>
      if DeclarationAcceptable(reg, declared) {
        DeclaredNotBuiltin(reg, declared, id);
      }
    case _ => QuietAddsNothing(reg, op);
  }

  lemma RegisteredBefore(reg: Reg, r: Registration, now: int)
    requires r.deviceId in reg.devices
    ensures RegisterProvisioned(reg, r, now).reg == reg
  {
  }

  lemma QuietAddsNothing(reg: Reg, op: Op)
    requires Listed(reg) && !op.Register? && !op.AddDriver?
    ensures forall id <- Step(reg, op).devices :: id in reg.devices
  {
    match op
    case Command(target, action, payload, expected, now) =>
      ExecuteListed(reg, target, action, payload, expected, now);
      assert Step(reg, op).devices.Keys == reg.devices.Keys;
    case TickAll(now, forecast) =>
      TickListed(reg, now, forecast);
      assert Step(reg, op).devices.Keys == reg.devices.Keys;
    case _ =>
  }

  /** One valid operation on a readable registry leaves it readable exactly when it blights nothing. */
  lemma StepShowable(reg: Reg, op: Op)
    requires RegOk(reg) && Listed(reg) && AllShowable(reg) && ValidOp(op)
    ensures AllShowable(Step(reg, op)) <==> !Blights(reg, op)
  {
    hide RegOk, Step, Perform, Showable, ValidOp, SilentWrite, Listed;
    var after := Step(reg, op);
    forall id | id in reg.devices && id in after.devices && BuiltinDevice(reg.devices[id])
      ensures BuiltinDevice(after.devices[id])
      ensures Showable(after.devices[id]) <==> !SilentlyWrites(reg, op, id)
    {
      DeviceStaysShowable(reg, op, id);
    }
    forall id | id in after.devices && id !in reg.devices
      ensures BuiltinDevice(after.devices[id]) ==> Showable(after.devices[id])
    {
      NewDeviceShowable(reg, op, id);
    }
    forall id | id in reg.devices && id in after.devices
      ensures BuiltinDevice(reg.devices[id]) == BuiltinDevice(after.devices[id])
    {
      KindStays(reg, op, id);
    }
    if Blights(reg, op) {
      CommandKeepsDevice(reg, op);
      assert SilentlyWrites(reg, op, op.target);
    }
  }

  lemma KindStays(reg: Reg, op: Op, id: string)
    requires RegOk(reg) && Listed(reg) && id in reg.devices && id in Step(reg, op).devices
    ensures BuiltinDevice(reg.devices[id]) == BuiltinDevice(Step(reg, op).devices[id])
  {
    hide RegOk, Listed, Step;
    DeviceStaysOk(reg, op, id);
  }

  lemma CommandKeepsDevice(reg: Reg, op: Op)
    requires Listed(reg) && op.Command? && op.target in reg.devices
    ensures op.target in Step(reg, op).devices
  {
    ExecuteListed(reg, op.target, op.action, op.payload, op.expected, op.now);
    assert op.target in Step(reg, op).devices.Keys;
  }

  // ----- whole runs

  ghost predicate ReadThroughout(reg: Reg, ops: seq<Op>, texts: Texts)
    requires Listed(reg)
  {
    forall n :: 0 <= n <= |ops| ==> !Throws(At(reg, ops, n), texts)
  }

  ghost predicate NeverBlighted(reg: Reg, ops: seq<Op>)
    requires Listed(reg)
  {
    forall n :: 0 <= n < |ops| ==> !Blights(At(reg, ops, n), ops[n])
  }

  lemma {:induction false} StaysShowable(reg: Reg, ops: seq<Op>, n: nat)
    requires RegOk(reg) && Listed(reg) && SoundRun(reg, ops) && AllShowable(reg) && n <= |ops|
    requires (forall op <- ops :: ValidOp(op)) && NeverBlighted(reg, ops)
    ensures AllShowable(At(reg, ops, n))
  {
    hide RegOk, Step, Perform, SoundRun, AllShowable, Blights, ValidOp;
    if n == 0 {
      assert ops[..0] == [];
    } else {
      StaysShowable(reg, ops, n - 1);
      RunOk(reg, ops, n - 1);
      NextAt(reg, ops, n - 1);
      hide At;
      assert ops[n - 1] in ops;
      StepShowable(At(reg, ops, n - 1), ops[n - 1]);
    }
  }

  /**
   * Every snapshot of a run of validated requests can be read by the client exactly when no command of
   * the run leaves a refused argument in an air conditioner.
   */
  lemma ReadExactly(reg: Reg, ops: seq<Op>, texts: Texts)
    requires RegOk(reg) && Listed(reg) && SoundRun(reg, ops) && AllShowable(reg) && TextsOk(texts)
    requires forall op <- ops :: ValidOp(op)
    requires forall n :: 0 <= n <= |ops| ==> VersionsFit(At(reg, ops, n))
    ensures ReadThroughout(reg, ops, texts) <==> NeverBlighted(reg, ops)
  {
    hide RegOk, Step, Perform, SoundRun, AllShowable, Blights, ValidOp, VersionsFit, Throws, TextsOk;
    if NeverBlighted(reg, ops) {
      forall n | 0 <= n <= |ops| ensures !Throws(At(reg, ops, n), texts) {
        StaysShowable(reg, ops, n);
        RunOk(reg, ops, n);
        ThrowsExactly(At(reg, ops, n), texts);
      }
    }
    if ReadThroughout(reg, ops, texts) {
      forall n | 0 <= n < |ops| ensures !Blights(At(reg, ops, n), ops[n]) {
        RunOk(reg, ops, n);
        RunOk(reg, ops, n + 1);
        NextAt(reg, ops, n);
        hide At;
        ThrowsExactly(At(reg, ops, n), texts);
        ThrowsExactly(At(reg, ops, n + 1), texts);
        assert ops[n] in ops;
        StepShowable(At(reg, ops, n), ops[n]);
      }
    }
  }

  // ----- the registry the gateway starts with

  predicate NewAndShowable(d: Device) {
    Showable(d) && d.stateVersion == 1
  }

  predicate DeclaresShowable(declared: Declaration) {
    forall d <- declared.devices :: d.id.Some? ==> NewAndShowable(StoredDevice(declared.driver, d))
  }

  lemma LightShowable(now: int)
    ensures DeclaresShowable(LightDriver(now))
  {
  }

  lemma EnvironmentShowable(now: int)
    ensures DeclaresShowable(EnvironmentDriver(now))
  {
  }

  lemma HumidifierShowable(now: int)
    ensures DeclaresShowable(HumidifierDriver(now))
  {
  }

  lemma BathHeaterShowable(now: int)
    ensures DeclaresShowable(BathHeaterDriver(now))
  {
  }

  lemma AirConditionerShowable(now: int)
    ensures DeclaresShowable(AirConditionerDriver(now))
  {
  }

  lemma DoorLockShowable(now: int)
    ensures DeclaresShowable(DoorLockDriver(now))
  {
  }

  lemma CurtainShowable(now: int)
    ensures DeclaresShowable(CurtainDriver(now))
  {
  }

  lemma DefaultDevicesShowable(now: int, n: nat)
    requires n < 7
    ensures DeclaresShowable(DefaultDrivers(now)[n])
  {
    hide DeclaresShowable, LightDriver, EnvironmentDriver, HumidifierDriver, BathHeaterDriver, AirConditionerDriver,
         DoorLockDriver, CurtainDriver;
    match n
    case 0 => LightShowable(now);
    case 1 => EnvironmentShowable(now);
    case 2 => HumidifierShowable(now);
    case 3 => BathHeaterShowable(now);
    case 4 => AirConditionerShowable(now);
    case 5 => DoorLockShowable(now);
    case _ => CurtainShowable(now);
  }

  lemma {:induction false} BootedFirstShowable(now: int, n: nat)
    requires n <= 7
    ensures forall id <- BootedFirst(now, n).devices :: NewAndShowable(BootedFirst(now, n).devices[id])
  {
    if n > 0 {
      BootedFirstShowable(now, n - 1);
      DefaultDevicesShowable(now, n - 1);
      FirstAccepts(now, n - 1);
      hide Registered, DefaultDrivers, NewAndShowable, DeclarationAcceptable, Listed;
      forall id <- BootedFirst(now, n).devices ensures NewAndShowable(BootedFirst(now, n).devices[id]) {
        RegisteredDevice(BootedFirst(now, n - 1), DefaultDrivers(now)[n - 1], id);
      }
    }
  }

  lemma InitialShowable(now: int)
    ensures RegOk(Initial(now)) && Listed(Initial(now)) && AllShowable(Initial(now)) && VersionsFit(Initial(now))
  {
    hide BootedFirst, Showable;
    BootOk(now);
    RegOkListed(Initial(now));
    BootedFirstShowable(now, 7);
  }

  /** The same for every run of the gateway from its start. */
  lemma ReadFromStart(now: int, ops: seq<Op>, texts: Texts)
    requires TextsOk(texts) && Listed(Initial(now)) && SoundRun(Initial(now), ops)
    requires forall op <- ops :: ValidOp(op)
    requires forall n :: 0 <= n <= |ops| ==> VersionsFit(At(Initial(now), ops, n))
    ensures ReadThroughout(Initial(now), ops, texts) <==> NeverBlighted(Initial(now), ops)
  {
    hide Initial, At, SoundRun, ValidOp, VersionsFit, ReadThroughout, NeverBlighted, TextsOk;
    InitialShowable(now);
    ReadExactly(Initial(now), ops, texts);
  }

  lemma BlightSpoils(reg: Reg, op: Op, texts: Texts)
    requires RegOk(reg) && Listed(reg) && AllShowable(reg) && VersionsFit(reg) && TextsOk(texts)
    requires ValidOp(op) && SoundOp(reg, op) && Blights(reg, op)
    ensures !Throws(reg, texts) && Throws(Step(reg, op), texts)
  {
    hide RegOk, TextsOk, Throws, VersionsFit, AllShowable, Blights, Step, ValidOp, SoundOp;
    ThrowsExactly(reg, texts);
    StepShowable(reg, op);
    StepOk(reg, op);
    StepListed(reg, op);
    ThrowsExactly(Step(reg, op), texts);
  }

  /** From the registry the gateway starts with, one refused command is enough. */
  lemma OneRefusalSpoilsSnapshot(now: int, texts: Texts)
    requires now >= 0 && TextsOk(texts)
    ensures var reg := Initial(now);
            var op := Command("ac-living-01", "setMode", map["mode" := StrV("turbo")], None, now);
      && Listed(reg) && !Throws(reg, texts) && Throws(Step(reg, op), texts)
      && Execute(reg, op.target, op.action, op.payload, op.expected, op.now).result == Err(InvalidCommand)
  {
    InitialShowable(now);
    InitialAirConditioner(now);
    hide Initial, RegOk, Listed, TextsOk, Throws, VersionsFit, AllShowable, SilentWrite, Step, Commanded;
    var d := Initial(now).devices["ac-living-01"];
    SilentDevice(d, now);
    RefusedByAdapter(d, now);
    assert BuiltinDevice(d);
    assert Blights(Initial(now), Command("ac-living-01", "setMode", map["mode" := StrV("turbo")], None, now));
    BlightSpoils(Initial(now), Command("ac-living-01", "setMode", map["mode" := StrV("turbo")], None, now), texts);
  }

  lemma RefusedByAdapter(d: Device, now: int)
    requires d.body == AirConditionerBody("haierSim", 24)
    requires d.online && d.commandDelayMs == 0 && !d.failNextCommand
    ensures Commanded(d, "setMode", map["mode" := StrV("turbo")], None, now).error == Some(InvalidCommand)
  {
    assert "turbo" !in VALID_MODES;
  }
}
