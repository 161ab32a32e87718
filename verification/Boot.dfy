/** The registry the gateway starts with: the default rooms and the seven default drivers. */
module Boot {
  import opened Wrappers
  import opened Devices
  import opened Registry
  import opened Operations
  import opened Structure

  const DEFAULT_ROOMS: map<string, Room> := map[
    "living" := Room("客厅", true),
    "masterBedroom" := Room("主卧", true),
    "bedroom" := Room("次卧", true),
    "bathroom" := Room("浴室", true),
    "entry" := Room("入户", false)]

  const EMPTY := Reg(map[], map[], [], map[], DEFAULT_ROOMS, [])

  function DeclareCategory(id: string, title: string, icon: string): DeclaredCategory {
    DeclaredCategory(Some(id), Some(title), Some(icon), Some(false))
  }

  function Declare(id: string, name: string, roomId: string, kind: string, category: Option<string>,
                   now: int, body: Body): DeclaredDevice {
    DeclaredDevice(Some(id), Some(kind), false, BaseDevice(id, name, roomId, kind, category, now, body))
  }

  function LightDriver(now: int): Declaration {
    Declaration(Driver("light", LightFamily, true), [DeclareCategory("lighting", "灯光", "○")], [
      Declare("light-living-01", "客厅主灯", "living", "light", Some("lighting"), now, LightBody(60)),
      Declare("light-master-01", "主卧顶灯", "masterBedroom", "light", Some("lighting"), now, LightBody(60)),
      Declare("light-bedroom-01", "次卧阅读灯", "bedroom", "light", Some("lighting"), now, LightBody(50))])
  }

  function EnvironmentDriver(now: int): Declaration {
    Declaration(Driver("environment", EnvironmentFamily, true), [DeclareCategory("environment", "环境", "≈")], [
      Declare("env-living-01", "客厅环境传感器", "living", "environment", Some("environment"), now,
              EnvironmentBody(24.0, 55.0, 80.0, true)),
      Declare("env-master-01", "主卧环境传感器", "masterBedroom", "environment", Some("environment"), now,
              EnvironmentBody(23.4, 52.0, 130.0, true)),
      Declare("env-bedroom-01", "次卧环境传感器", "bedroom", "environment", Some("environment"), now,
              EnvironmentBody(24.2, 54.0, 95.0, true))])
  }

  function HumidifierDriver(now: int): Declaration {
    Declaration(Driver("humidifier", HumidifierFamily, true), [], [
      Declare("humidifier-living-01", "客厅加湿器", "living", "humidifier", Some("environment"), now,
              Humidifier(false, 55))])
  }

  function BathHeaterDriver(now: int): Declaration {
    Declaration(Driver("bathHeater", BathHeaterFamily, true), [], [
      Declare("bath-heater-bathroom-01", "浴室智能浴霸", "bathroom", "bathHeater", Some("environment"), now,
              BathHeater(false, "warm"))])
  }

  function AirConditionerDriver(now: int): Declaration {
    Declaration(Driver("airConditioner", AirConditionerFamily, true), [], [
      Declare("ac-living-01", "客厅空调", "living", "airConditioner", Some("environment"), now,
              AirConditionerBody("haierSim", 24)),
      Declare("ac-master-01", "主卧空调", "masterBedroom", "airConditioner", Some("environment"), now,
              AirConditionerBody("greeSim", 26)),
      Declare("ac-bedroom-01", "次卧空调", "bedroom", "airConditioner", Some("environment"), now,
              AirConditionerBody("mideaSim", 25))])
  }

  function DoorLockDriver(now: int): Declaration {
    Declaration(Driver("doorLock", DoorLockFamily, false), [], [
      Declare("door-entry-01", "入户门锁", "entry", "doorLock", None, now,
              DoorLock(true, false, 92, true, 10, None))])
  }

  function CurtainDriver(now: int): Declaration {
    Declaration(Driver("curtain", CurtainFamily, true), [DeclareCategory("curtains", "窗帘", "curtain")], [
      Declare("curtain-living-01", "客厅智能窗帘", "living", "curtain", Some("curtains"), now,
              Curtain(0, 0, Stopped)),
      Declare("curtain-master-01", "主卧智能窗帘", "masterBedroom", "curtain", Some("curtains"), now,
              Curtain(0, 0, Stopped)),
      Declare("curtain-bedroom-01", "次卧智能窗帘", "bedroom", "curtain", Some("curtains"), now,
              Curtain(0, 0, Stopped))])
  }

  /** default_drivers(), in the order they are registered. */
  function DefaultDrivers(now: int): (ds: seq<Declaration>)
    ensures |ds| == 7
  {
    [LightDriver(now), EnvironmentDriver(now), HumidifierDriver(now), BathHeaterDriver(now),
     AirConditionerDriver(now), DoorLockDriver(now), CurtainDriver(now)]
  }

  /** The constructor: None when a driver is refused. */
  function Booted(reg: Reg, drivers: seq<Declaration>): Option<Reg>
    decreases |drivers|
  {
    if drivers == [] then Some(reg)
    else
      var next := RegisterDriver(reg, drivers[0]);
      if next.None? then None else Booted(next.value, drivers[1..])
  }

  predicate Orderly(declared: Declaration) {
    && (forall c <- declared.categories :: WellFormedCategory(c))
    && (forall i, j :: 0 <= i < j < |declared.categories| ==> declared.categories[i].id != declared.categories[j].id)
    && (forall i, j :: 0 <= i < j < |declared.devices| ==> declared.devices[i].id != declared.devices[j].id)
    && (forall d <- declared.devices ::
          && d.id.Some? && d.id.value != "" && d.kind == Some(declared.driver.kind) && !d.namesCategory
          && (declared.driver.requiresCategory ==> d.device.categoryId.Some?)
          && FamilyOf(d.device.body) == declared.driver.family && BodyOk(d.device.body)
          && !d.device.removable)
  }

  function CategoryIds(cs: seq<DeclaredCategory>): set<string> {
    set c | c in cs && c.id.Some? :: c.id.value
  }

  function DeviceIds(ds: seq<DeclaredDevice>): set<string> {
    set d | d in ds && d.id.Some? :: d.id.value
  }

  lemma {:induction false} NewCategoriesKeys(cs: seq<DeclaredCategory>)
    requires forall c <- cs :: WellFormedCategory(c)
    ensures NewCategories(cs).Keys == CategoryIds(cs)
    decreases |cs|
  {
    if cs != [] {
      var front := cs[..|cs| - 1];
      NewCategoriesKeys(front);
      assert cs == front + [cs[|cs| - 1]];
    }
  }

  /** The ids seen so far decide whether the next driver is accepted. */
  ghost predicate Holds(reg: Reg, kinds: set<string>, categories: set<string>, ids: set<string>) {
    RegCore(reg) && reg.drivers.Keys == kinds && reg.categories.Keys == categories && reg.devices.Keys == ids
  }

  /** A default driver that shares nothing with the registry so far. */
  ghost predicate Fits(declared: Declaration, kinds: set<string>, categories: set<string>, ids: set<string>) {
    && Orderly(declared)
    && declared.driver.kind !in kinds && declared.driver.kind != ""
    && CategoryIds(declared.categories) !! categories
    && DeviceIds(declared.devices) !! ids
    && (forall d <- declared.devices :: d.device.categoryId.Some? ==>
          d.device.categoryId.value in categories + CategoryIds(declared.categories))
  }

  lemma BootAccepts(reg: Reg, declared: Declaration, kinds: set<string>, categories: set<string>, ids: set<string>)
    requires Holds(reg, kinds, categories, ids) && Fits(declared, kinds, categories, ids)
    ensures DeclarationAcceptable(reg, declared) && SoundDeclaration(reg, declared)
  {
    hide BodyOk, DeviceFits;
    NewCategoriesKeys(declared.categories);
    var known := reg.categories.Keys + NewCategories(declared.categories).Keys;
    forall c <- declared.categories ensures WellFormedCategory(c) && c.id.value !in reg.categories {
      assert c.id.value in CategoryIds(declared.categories);
    }
    forall d <- declared.devices ensures DeviceAcceptable(reg, known, declared.driver, d) {
      assert d.id.value in DeviceIds(declared.devices);
    }
  }

  lemma BootKeys(reg: Reg, declared: Declaration, id: string)
    requires DeclarationAcceptable(reg, declared)
    ensures id in Registered(reg, declared).devices <==> id in reg.devices.Keys + DeviceIds(declared.devices)
  {
    RegisteredDevice(reg, declared, id);
    if id in DeviceIds(declared.devices) {
      var d :| d in declared.devices && d.id == Some(id);
      BootStores(reg, declared, d);
    }
  }

  lemma BootStores(reg: Reg, declared: Declaration, d: DeclaredDevice)
    requires DeclarationAcceptable(reg, declared) && d in declared.devices && d.id.Some?
    ensures d.id.value in Registered(reg, declared).devices
    ensures Registered(reg, declared).devices[d.id.value] == StoredDevice(declared.driver, d)
  {
    var ds := declared.devices;
    var i :| 0 <= i < |ds| && ds[i] == d;
    WithDevicesStores(reg.(categories := reg.categories + NewCategories(declared.categories),
                           drivers := reg.drivers[declared.driver.kind := declared.driver]),
                      declared.driver, ds, i);
  }

  lemma BootAllKeys(reg: Reg, declared: Declaration)
    requires DeclarationAcceptable(reg, declared)
    ensures Registered(reg, declared).devices.Keys == reg.devices.Keys + DeviceIds(declared.devices)
  {
    hide Registered, DeclarationAcceptable, DeviceIds;
    forall id
      ensures id in Registered(reg, declared).devices <==> id in reg.devices.Keys + DeviceIds(declared.devices)
    {
      BootKeys(reg, declared, id);
    }
  }

  lemma BootTables(reg: Reg, declared: Declaration)
    requires Listed(reg) && DeclarationAcceptable(reg, declared)
    requires forall c <- declared.categories :: WellFormedCategory(c)
    ensures var after := Registered(reg, declared);
      && after.categories.Keys == reg.categories.Keys + CategoryIds(declared.categories)
      && after.drivers == reg.drivers[declared.driver.kind := declared.driver]
      && after.rooms == reg.rooms
  {
    NewCategoriesKeys(declared.categories);
    hide Registered, DeclarationAcceptable, Listed;
    RegisterDriverListed(reg, declared);
  }

  /** One more default driver. */
  lemma BootStep(reg: Reg, declared: Declaration, kinds: set<string>, categories: set<string>, ids: set<string>)
    requires Holds(reg, kinds, categories, ids) && Fits(declared, kinds, categories, ids)
    ensures RegisterDriver(reg, declared) == Some(Registered(reg, declared))
    ensures Holds(Registered(reg, declared), kinds + {declared.driver.kind},
                  categories + CategoryIds(declared.categories), ids + DeviceIds(declared.devices))
    ensures Registered(reg, declared).drivers == reg.drivers[declared.driver.kind := declared.driver]
    ensures Registered(reg, declared).rooms == reg.rooms
  {
    BootAccepts(reg, declared, kinds, categories, ids);
    CoreListed(reg);
    BootTables(reg, declared);
    BootAllKeys(reg, declared);
    AddDriverCore(reg, declared);
    hide Registered, DeclarationAcceptable, RegCore, Orderly;
  }

  lemma CoreListed(reg: Reg)
    requires RegCore(reg)
    ensures Listed(reg)
  {
  }

  lemma EmptyHolds()
    ensures Holds(EMPTY, {}, {}, {})
  {
  }

  /** The registry after the first n default drivers. */
  function BootedFirst(now: int, n: nat): Reg
    requires n <= 7
  {
    if n == 0 then EMPTY else Registered(BootedFirst(now, n - 1), DefaultDrivers(now)[n - 1])
  }

  function Initial(now: int): Reg {
    BootedFirst(now, 7)
  }

  lemma LightFits(now: int)
    ensures Fits(LightDriver(now), {}, {},
                 {})
    ensures CategoryIds(LightDriver(now).categories) == {"lighting"}
    ensures DeviceIds(LightDriver(now).devices) == {"light-living-01", "light-master-01", "light-bedroom-01"}
  {
    var ds := LightDriver(now).devices;
    var cs := LightDriver(now).categories;
    assert ds[0] in ds;
    assert ds[1] in ds;
    assert ds[2] in ds;
    assert cs[0] in cs;
  }

  lemma EnvironmentFits(now: int)
    ensures Fits(EnvironmentDriver(now), {"light"}, {"lighting"},
                 {"light-living-01", "light-master-01", "light-bedroom-01"})
    ensures CategoryIds(EnvironmentDriver(now).categories) == {"environment"}
    ensures DeviceIds(EnvironmentDriver(now).devices) == {"env-living-01", "env-master-01", "env-bedroom-01"}
  {
    var ds := EnvironmentDriver(now).devices;
    var cs := EnvironmentDriver(now).categories;
    assert ds[0] in ds;
    assert ds[1] in ds;
    assert ds[2] in ds;
    assert cs[0] in cs;
  }

  lemma HumidifierFits(now: int)
    ensures Fits(HumidifierDriver(now), {"light", "environment"}, {"lighting", "environment"},
                 {"light-living-01", "light-master-01", "light-bedroom-01", "env-living-01", "env-master-01",
                  "env-bedroom-01"})
    ensures CategoryIds(HumidifierDriver(now).categories) == {}
    ensures DeviceIds(HumidifierDriver(now).devices) == {"humidifier-living-01"}
  {
    var ds := HumidifierDriver(now).devices;
    var cs := HumidifierDriver(now).categories;
    assert ds[0] in ds;
  }

  lemma BathHeaterFits(now: int)
    ensures Fits(BathHeaterDriver(now), {"light", "environment", "humidifier"}, {"lighting", "environment"},
                 {"light-living-01", "light-master-01", "light-bedroom-01", "env-living-01", "env-master-01",
                  "env-bedroom-01", "humidifier-living-01"})
    ensures CategoryIds(BathHeaterDriver(now).categories) == {}
    ensures DeviceIds(BathHeaterDriver(now).devices) == {"bath-heater-bathroom-01"}
  {
    var ds := BathHeaterDriver(now).devices;
    var cs := BathHeaterDriver(now).categories;
    assert ds[0] in ds;
  }

  /** No string of the set starts with the letter. */
  predicate NoneStartsWith(s: set<string>, c: char) {
    forall x <- s :: x != "" && x[0] != c
  }

  lemma AirConditionerOrderly(now: int)
    ensures Orderly(AirConditionerDriver(now))
    ensures CategoryIds(AirConditionerDriver(now).categories) == {}
    ensures DeviceIds(AirConditionerDriver(now).devices) == {"ac-living-01", "ac-master-01", "ac-bedroom-01"}
  {
    var ds := AirConditionerDriver(now).devices;
    assert ds[0] in ds && ds[1] in ds && ds[2] in ds;
  }

  lemma AirConditionerFitsBeside(now: int, kinds: set<string>, categories: set<string>, ids: set<string>)
    requires "airConditioner" !in kinds && "environment" in categories && NoneStartsWith(ids, 'a')
    ensures Fits(AirConditionerDriver(now), kinds, categories, ids)
  {
    hide Orderly, CategoryIds, DeviceIds;
    AirConditionerOrderly(now);
  }

  lemma AirConditionerFits(now: int)
    ensures Fits(AirConditionerDriver(now), KindsFirst(4), CategoriesFirst(4), IdsFirst(4))
  {
    hide Fits;
    assert NoneStartsWith(IdsFirst(4), 'a');
    AirConditionerFitsBeside(now, KindsFirst(4), CategoriesFirst(4), IdsFirst(4));
  }

  lemma DoorLockFits(now: int)
    ensures Fits(DoorLockDriver(now), {"light", "environment", "humidifier", "bathHeater", "airConditioner"},
                 {"lighting", "environment"},
                 {"light-living-01", "light-master-01", "light-bedroom-01", "env-living-01", "env-master-01",
                  "env-bedroom-01", "humidifier-living-01", "bath-heater-bathroom-01", "ac-living-01",
                    "ac-master-01", "ac-bedroom-01"})
    ensures CategoryIds(DoorLockDriver(now).categories) == {}
    ensures DeviceIds(DoorLockDriver(now).devices) == {"door-entry-01"}
  {
    var ds := DoorLockDriver(now).devices;
    var cs := DoorLockDriver(now).categories;
    assert ds[0] in ds;
  }

  lemma CurtainOrderly(now: int)
    ensures Orderly(CurtainDriver(now))
    ensures CategoryIds(CurtainDriver(now).categories) == {"curtains"}
    ensures DeviceIds(CurtainDriver(now).devices) ==
            {"curtain-living-01", "curtain-master-01", "curtain-bedroom-01"}
  {
    var ds := CurtainDriver(now).devices;
    var cs := CurtainDriver(now).categories;
    assert ds[0] in ds && ds[1] in ds && ds[2] in ds && cs[0] in cs;
  }

  lemma CurtainFitsBeside(now: int, kinds: set<string>, categories: set<string>, ids: set<string>)
    requires NoneStartsWith(kinds, 'c') && NoneStartsWith(categories, 'c') && NoneStartsWith(ids, 'c')
    ensures Fits(CurtainDriver(now), kinds, categories, ids)
  {
    hide Orderly, CategoryIds, DeviceIds;
    CurtainOrderly(now);
  }

  lemma KindsWithoutC()
    ensures NoneStartsWith(KindsFirst(6), 'c')
  {
  }

  lemma CategoriesWithoutC()
    ensures NoneStartsWith(CategoriesFirst(6), 'c')
  {
  }

  lemma IdsWithoutC()
    ensures NoneStartsWith(IdsFirst(6), 'c')
  {
  }

  lemma CurtainFits(now: int)
    ensures Fits(CurtainDriver(now), KindsFirst(6), CategoriesFirst(6), IdsFirst(6))
  {
    hide Fits, NoneStartsWith, KindsFirst, CategoriesFirst, IdsFirst;
    KindsWithoutC();
    CategoriesWithoutC();
    IdsWithoutC();
    CurtainFitsBeside(now, KindsFirst(6), CategoriesFirst(6), IdsFirst(6));
  }

  function KindsFirst(n: nat): set<string> {
    if n == 0 then {}
    else if n == 1 then {"light"}
    else if n == 2 then {"light", "environment"}
    else if n == 3 then {"light", "environment", "humidifier"}
    else if n == 4 then {"light", "environment", "humidifier", "bathHeater"}
    else if n == 5 then {"light", "environment", "humidifier", "bathHeater", "airConditioner"}
    else if n == 6 then {"light", "environment", "humidifier", "bathHeater", "airConditioner", "doorLock"}
    else {"light", "environment", "humidifier", "bathHeater", "airConditioner", "doorLock", "curtain"}
  }

  function CategoriesFirst(n: nat): set<string> {
    if n == 0 then {} else if n == 1 then {"lighting"} else if n < 7 then {"lighting", "environment"}
    else {"lighting", "environment", "curtains"}
  }

  function IdsFirst(n: nat): set<string> {
    if n == 0 then {}
    else if n == 1 then {"light-living-01", "light-master-01", "light-bedroom-01"}
    else if n == 2 then {"light-living-01", "light-master-01", "light-bedroom-01", "env-living-01",
                         "env-master-01", "env-bedroom-01"}
    else if n == 3 then {"light-living-01", "light-master-01", "light-bedroom-01", "env-living-01",
                         "env-master-01", "env-bedroom-01", "humidifier-living-01"}
    else if n == 4 then {"light-living-01", "light-master-01", "light-bedroom-01", "env-living-01",
                         "env-master-01", "env-bedroom-01", "humidifier-living-01", "bath-heater-bathroom-01"}
    else if n == 5 then {"light-living-01", "light-master-01", "light-bedroom-01", "env-living-01",
                         "env-master-01", "env-bedroom-01", "humidifier-living-01", "bath-heater-bathroom-01",
                           "ac-living-01", "ac-master-01", "ac-bedroom-01"}
    else if n == 6 then {"light-living-01", "light-master-01", "light-bedroom-01", "env-living-01",
                         "env-master-01", "env-bedroom-01", "humidifier-living-01", "bath-heater-bathroom-01",
                           "ac-living-01", "ac-master-01", "ac-bedroom-01", "door-entry-01"}
    else {"light-living-01", "light-master-01", "light-bedroom-01", "env-living-01", "env-master-01",
          "env-bedroom-01", "humidifier-living-01", "bath-heater-bathroom-01", "ac-living-01", "ac-master-01",
            "ac-bedroom-01", "door-entry-01", "curtain-living-01", "curtain-master-01", "curtain-bedroom-01"}
  }

  lemma DriverFits(now: int, n: nat)
    requires n < 7
    ensures Fits(DefaultDrivers(now)[n], KindsFirst(n), CategoriesFirst(n), IdsFirst(n))
  {
    hide Fits, Orderly, CategoryIds, DeviceIds;
    match n
    case 0 => LightFits(now);
    case 1 => EnvironmentFits(now);
    case 2 => HumidifierFits(now);
    case 3 => BathHeaterFits(now);
    case 4 => AirConditionerFits(now); AirConditionerOrderly(now);
    case 5 => DoorLockFits(now);
    case 6 => CurtainFits(now); CurtainOrderly(now);
  }

  lemma DriverAdds(now: int, n: nat)
    requires n < 7
    ensures KindsFirst(n + 1) == KindsFirst(n) + {DefaultDrivers(now)[n].driver.kind}
    ensures CategoriesFirst(n + 1) == CategoriesFirst(n) + CategoryIds(DefaultDrivers(now)[n].categories)
  {
    hide Fits, Orderly, CategoryIds, DeviceIds, IdsFirst;
    match n
    case 0 => LightFits(now);
    case 1 => EnvironmentFits(now);
    case 2 => HumidifierFits(now);
    case 3 => BathHeaterFits(now);
    case 4 => AirConditionerFits(now); AirConditionerOrderly(now);
    case 5 => DoorLockFits(now);
    case 6 => CurtainFits(now); CurtainOrderly(now);
  }

  lemma DriverAddsIds(now: int, n: nat)
    requires n < 7
    ensures IdsFirst(n + 1) == IdsFirst(n) + DeviceIds(DefaultDrivers(now)[n].devices)
  {
    hide Fits, Orderly, CategoryIds, DeviceIds, KindsFirst, CategoriesFirst;
    match n
    case 0 => LightFits(now);
    case 1 => EnvironmentFits(now);
    case 2 => HumidifierFits(now);
    case 3 => BathHeaterFits(now);
    case 4 => AirConditionerFits(now); AirConditionerOrderly(now);
    case 5 => DoorLockFits(now);
    case 6 => CurtainFits(now); CurtainOrderly(now);
  }

  lemma {:induction false} BootFirstHolds(now: int, n: nat)
    requires n <= 7
    ensures Holds(BootedFirst(now, n), KindsFirst(n), CategoriesFirst(n), IdsFirst(n))
    ensures BootedFirst(now, n).rooms == DEFAULT_ROOMS
  {
    if n == 0 {
      EmptyHolds();
    } else {
      BootFirstHolds(now, n - 1);
      DriverFits(now, n - 1);
      DriverAdds(now, n - 1);
      DriverAddsIds(now, n - 1);
      hide Fits, Holds, Registered, CategoryIds, DeviceIds, KindsFirst, CategoriesFirst, IdsFirst;
      BootStep(BootedFirst(now, n - 1), DefaultDrivers(now)[n - 1],
               KindsFirst(n - 1), CategoriesFirst(n - 1), IdsFirst(n - 1));
    }
  }

  ghost predicate Stored(reg: Reg, driver: Driver, d: DeclaredDevice)
    requires d.id.Some?
  {
    && driver.kind in reg.drivers && reg.drivers[driver.kind] == driver
    && d.id.value in reg.devices && reg.devices[d.id.value] == StoredDevice(driver, d)
  }

  lemma StoredStays(reg: Reg, declared: Declaration, driver: Driver, d: DeclaredDevice)
    requires Listed(reg) && DeclarationAcceptable(reg, declared)
    requires d.id.Some? && Stored(reg, driver, d)
    ensures Stored(Registered(reg, declared), driver, d)
  {
    FreshKind(reg, declared);
    hide Registered, DeclarationAcceptable, Listed;
    RegisteredDevice(reg, declared, d.id.value);
    RegisterDriverListed(reg, declared);
  }

  lemma StoredAtOnce(reg: Reg, declared: Declaration, d: DeclaredDevice)
    requires Listed(reg) && DeclarationAcceptable(reg, declared)
    requires d in declared.devices && d.id.Some?
    ensures Stored(Registered(reg, declared), declared.driver, d)
  {
    hide Registered, DeclarationAcceptable, Listed;
    BootStores(reg, declared, d);
    RegisterDriverListed(reg, declared);
  }

  lemma FirstAccepts(now: int, n: nat)
    requires n < 7
    ensures Listed(BootedFirst(now, n)) && DeclarationAcceptable(BootedFirst(now, n), DefaultDrivers(now)[n])
  {
    BootFirstHolds(now, n);
    DriverFits(now, n);
    BootAccepts(BootedFirst(now, n), DefaultDrivers(now)[n], KindsFirst(n), CategoriesFirst(n), IdsFirst(n));
    CoreListed(BootedFirst(now, n));
  }

  /** What a default driver declares is stored once it is registered, and stays. */
  lemma {:induction false} BootFirstStores(now: int, n: nat, j: nat, d: DeclaredDevice)
    requires j < n <= 7 && d in DefaultDrivers(now)[j].devices && d.id.Some?
    ensures Stored(BootedFirst(now, n), DefaultDrivers(now)[j].driver, d)
    decreases n
  {
    hide Stored, DefaultDrivers, Registered, DeclarationAcceptable, Listed;
    FirstAccepts(now, n - 1);
    if j == n - 1 {
      StoredAtOnce(BootedFirst(now, n - 1), DefaultDrivers(now)[j], d);
    } else {
      BootFirstStores(now, n - 1, j, d);
      StoredStays(BootedFirst(now, n - 1), DefaultDrivers(now)[n - 1], DefaultDrivers(now)[j].driver, d);
    }
  }

  lemma {:induction false} BootedFrom(now: int, n: nat)
    requires n <= 7
    ensures Booted(BootedFirst(now, n), DefaultDrivers(now)[n..]) == Some(Initial(now))
    decreases 7 - n
  {
    if n < 7 {
      BootFirstHolds(now, n);
      DriverFits(now, n);
      BootStep(BootedFirst(now, n), DefaultDrivers(now)[n], KindsFirst(n), CategoriesFirst(n), IdsFirst(n));
      hide Fits, Holds, Registered, CategoryIds, DeviceIds, KindsFirst, CategoriesFirst, IdsFirst, RegisterDriver;
      assert DefaultDrivers(now)[n..][0] == DefaultDrivers(now)[n];
      assert DefaultDrivers(now)[n..][1..] == DefaultDrivers(now)[n + 1..];
      BootedFrom(now, n + 1);
    }
  }

  lemma InitialDriver(now: int, j: nat)
    requires j < 7
    ensures var driver := DefaultDrivers(now)[j].driver;
      driver.kind in Initial(now).drivers && Initial(now).drivers[driver.kind] == driver
  {
    var d := DefaultDrivers(now)[j].devices[0];
    assert d in DefaultDrivers(now)[j].devices && d.id.Some?;
    hide BootedFirst;
    BootFirstStores(now, 7, j, d);
  }

  lemma InitialKind(now: int, j: nat, kind: string)
    requires j < 7 && DefaultDrivers(now)[j].driver.kind == kind
    ensures kind in Initial(now).drivers
    ensures Initial(now).drivers[kind].family == DefaultDrivers(now)[j].driver.family
  {
    hide DefaultDrivers, Initial;
    InitialDriver(now, j);
  }

  lemma InitialFamily(now: int, kind: string)
    requires kind in BUILTIN_KINDS
    ensures kind in Initial(now).drivers && Some(Initial(now).drivers[kind].family) == BuiltinFamily(kind)
  {
    hide Initial;
    match kind
    case "light" => InitialKind(now, 0, kind);
    case "environment" => InitialKind(now, 1, kind);
    case "humidifier" => InitialKind(now, 2, kind);
    case "bathHeater" => InitialKind(now, 3, kind);
    case "airConditioner" => InitialKind(now, 4, kind);
    case "doorLock" => InitialKind(now, 5, kind);
    case _ => InitialKind(now, 6, kind);
  }

  lemma InitialTables(now: int)
    ensures BuiltinTables(Initial(now))
  {
    BootFirstHolds(now, 7);
    assert Initial(now).categories.Keys == {"lighting", "environment", "curtains"};
    hide Initial, BootedFirst, Holds, BuiltinFamily, KindsFirst, IdsFirst, CategoriesFirst;
    forall kind <- BUILTIN_KINDS
      ensures kind in Initial(now).drivers && Some(Initial(now).drivers[kind].family) == BuiltinFamily(kind)
    {
      InitialFamily(now, kind);
    }
  }

  lemma InitialHome(now: int)
    ensures HomeDevices(Initial(now))
  {
    hide BootedFirst;
    BootFirstStores(now, 7, 0, LightDriver(now).devices[0]);
    BootFirstStores(now, 7, 4, AirConditionerDriver(now).devices[0]);
    BootFirstStores(now, 7, 5, DoorLockDriver(now).devices[0]);
  }

  /** The default drivers are accepted one after the other, and the registry they leave is well formed. */
  lemma BootOk(now: int)
    ensures Booted(EMPTY, DefaultDrivers(now)) == Some(Initial(now))
    ensures RegOk(Initial(now))
  {
    BootFirstHolds(now, 7);
    BootedFrom(now, 0);
    assert DefaultDrivers(now)[0..] == DefaultDrivers(now);
    InitialTables(now);
    InitialHome(now);
  }

  /** The living-room air conditioner the gateway starts with. */
  lemma InitialAirConditioner(now: int)
    ensures "ac-living-01" in Initial(now).devices
    ensures Initial(now).devices["ac-living-01"] ==
            BaseDevice("ac-living-01", "客厅空调", "living", "airConditioner", Some("environment"), now,
                       AirConditionerBody("haierSim", 24))
  {
    var d := AirConditionerDriver(now).devices[0];
    assert d in AirConditionerDriver(now).devices;
    assert StoredDevice(AirConditionerDriver(now).driver, d) == d.device;
    hide BootedFirst;
    BootFirstStores(now, 7, 4, d);
  }
}
