/** Two runs of the gateway, its channel and a client in which the client is wrong about a device. */
module LostRemovals {
  import opened Lists
  import opened Wrappers
  import opened Devices
  import opened Registry
  import opened Operations
  import opened Structure
  import opened Boot
  import opened Announcements
  import opened Messages
  import opened Replica
  import opened Returns

  const ID := "sensor-01"
  const SENSOR := Registration(
    ID, "sensor", "living", "environment", "environment",
    ["reportTemperature", "reportHumidity", "reportIlluminance", "reportPresence"])

  /** A registry the sensor can be registered in. */
  ghost predicate Ready(reg: Reg) {
    && Listed(reg) && ID !in reg.devices
    && "living" in reg.rooms && reg.rooms["living"].selectable
    && "environment" in reg.drivers && reg.drivers["environment"].family == EnvironmentFamily
  }

  function NewSensor(at: int): Device {
    NewDevice(SENSOR, EnvironmentBody(24.0, 62.0, 95.0, false), at)
  }

  function WithSensor(reg: Reg, d: Device): Reg {
    reg.(order := reg.order + [ID], devices := reg.devices[ID := d])
  }

  lemma AllCapabilities()
    ensures Elements(SENSOR.capabilities) == ENVIRONMENT_CAPABILITIES
  {
    var s := SENSOR.capabilities;
    assert s[0] in s && s[1] in s && s[2] in s && s[3] in s;
  }

  lemma Registering(reg: Reg, at: int)
    requires Ready(reg)
    ensures Step(reg, Register(SENSOR, at)) == WithSensor(reg, NewSensor(at))
    ensures Broadcast(reg, Register(SENSOR, at)) == [Update(PublicView(NewSensor(at), reg.categories))]
  {
    AllCapabilities();
    hide Elements, PublicView;
    OneUpdate(PublicView(NewSensor(at), reg.categories));
  }

  lemma OneUpdate(v: PublicDevice)
    ensures Updates([v]) == [Update(v)]
  {
    assert [v][..0] == [];
  }

  const RAISE := Faults(Some(true), None, None, None, None)

  /** A fault that changes nothing but the version. */
  lemma Raising(reg: Reg, d: Device)
    requires Ready(reg) && Listed(WithSensor(reg, d)) && !d.body.DoorLock? && d.online
    ensures Step(WithSensor(reg, d), Fault(ID, RAISE, 0)) == WithSensor(reg, Touched(d, 0))
    ensures Broadcast(WithSensor(reg, d), Fault(ID, RAISE, 0)) == [Update(PublicView(Touched(d, 0), reg.categories))]
  {
    hide PublicView;
    OneUpdate(PublicView(Touched(d, 0), reg.categories));
    assert Faulted(d, RAISE, 0) == Touched(d, 0);
    assert reg.devices[ID := d][ID := Touched(d, 0)] == reg.devices[ID := Touched(d, 0)];
  }

  lemma Removing(reg: Reg, d: Device)
    requires Ready(reg) && Listed(WithSensor(reg, d)) && d.removable && d.id == ID
    ensures Step(WithSensor(reg, d), Remove(ID)) == reg
    ensures Broadcast(WithSensor(reg, d), Remove(ID)) == [Removal(ID)]
  {
    WithoutAppended(reg.order, ID);
    assert reg.devices[ID := d] - {ID} == reg.devices;
  }

  lemma StillListed(reg: Reg, d: Device)
    requires Ready(reg)
    ensures Listed(WithSensor(reg, d))
  {
  }

  lemma SensorIsNew()
    ensures ID !in IdsFirst(7)
  {
  }

  lemma StartIsReady(now: int)
    ensures Ready(Initial(now)) && RegOk(Initial(now))
  {
    hide BootedFirst, IdsFirst, KindsFirst, CategoriesFirst, Holds, RegOk, BuiltinFamily, Listed;
    BootFirstHolds(now, 7);
    StartIds(now);
    SensorIsNew();
    InitialFamily(now, "environment");
    BootOk(now);
    RegOkListed(Initial(now));
    assert BuiltinFamily("environment") == Some(EnvironmentFamily) by { EnvironmentKind(); }
  }

  lemma EnvironmentKind()
    ensures BuiltinFamily("environment") == Some(EnvironmentFamily)
  {
  }

  lemma StartIds(now: int)
    ensures Initial(now).devices.Keys == IdsFirst(7)
  {
    hide BootedFirst, IdsFirst, KindsFirst, CategoriesFirst, RegCore;
    BootFirstHolds(now, 7);
  }

  // ----- building a history

  lemma GatewayActs(reg: Reg, happenings: seq<Happening>, op: Op, before: Reg, ms: seq<Message>)
    requires Listed(reg) && Listed(before)
    requires After(reg, History(reg, happenings).ops) == before && Broadcast(before, op) == ms
    ensures var w := History(reg, happenings);
      && History(reg, happenings + [GatewayDoes(op)]) == w.(ops := w.ops + [op], sent := w.sent + ms)
      && After(reg, w.ops + [op]) == Step(before, op)
  {
    hide History, Broadcast, Step, After;
    HistorySnoc(reg, happenings, GatewayDoes(op));
    AfterOne(reg, History(reg, happenings).ops, op);
  }

  lemma ClientIsTold(reg: Reg, happenings: seq<Happening>, k: nat)
    requires Listed(reg) && k < |History(reg, happenings).sent|
    ensures var w := History(reg, happenings);
      History(reg, happenings + [Delivers(k)]) == w.(client := Received(w.client, w.sent[k]))
  {
    hide History, Received;
    HistorySnoc(reg, happenings, Delivers(k));
  }

  lemma HistorySnoc(reg: Reg, happenings: seq<Happening>, h: Happening)
    requires Listed(reg)
    ensures History(reg, happenings + [h]) == Moved(reg, History(reg, happenings), h)
  {
    assert (happenings + [h])[..|happenings|] == happenings;
  }

  lemma Start(reg: Reg)
    requires Listed(reg)
    ensures History(reg, []) == World([], [], [], [], []) && After(reg, []) == reg
  {
  }

  lemma PlainOpsSound(reg: Reg, happenings: seq<Happening>)
    requires RegOk(reg) && Listed(reg)
    requires forall op <- History(reg, happenings).ops :: Served(op)
    ensures SoundHistory(reg, happenings)
  {
    var ops := History(reg, happenings).ops;
    assert forall n :: 0 <= n < |ops| ==> ops[n] in ops;
  }

  // ----- an update that comes late

  function View(reg: Reg, d: Device): PublicDevice {
    PublicView(d, reg.categories)
  }

  const ADD := Register(SENSOR, 0)
  const DROP := Remove(ID)

  const ADDED: seq<Happening> := [] + [GatewayDoes(ADD)]
  const TOLD_OF_SENSOR := ADDED + [Delivers(0)]
  const TOLD_OF_REMOVAL := TOLD_OF_SENSOR + [GatewayDoes(DROP)] + [Delivers(1)]

  /** The sensor is registered and removed, the client is told of both, and then of the first again. */
  const LATE := TOLD_OF_REMOVAL + [Delivers(0)]

  lemma Added(reg: Reg)
    requires Ready(reg)
    ensures var w := History(reg, ADDED);
      && w == World([ADD], [Update(View(reg, NewSensor(0)))], [], [], [])
      && After(reg, w.ops) == WithSensor(reg, NewSensor(0))
  {
    Registering(reg, 0);
    hide History, After, Step, Broadcast, Ready, Received;
    Listing(reg);
    Start(reg);
    GatewayActs(reg, [], ADD, reg, [Update(View(reg, NewSensor(0)))]);
    assert [] + [ADD] == [ADD];
  }

  lemma ToldOfSensor(reg: Reg)
    requires Ready(reg)
    ensures var v, w := View(reg, NewSensor(0)), History(reg, TOLD_OF_SENSOR);
      w == World([ADD], [Update(v)], [], [], [v]) && After(reg, w.ops) == WithSensor(reg, NewSensor(0))
  {
    hide History, After, Ready, Received, Listed;
    Listing(reg);
    Added(reg);
    ClientIsTold(reg, ADDED, 0);
    Alone(View(reg, NewSensor(0)));
  }

  lemma Listing(reg: Reg)
    requires Ready(reg)
    ensures Listed(reg)
  {
  }

  lemma ToldOfRemoval(reg: Reg)
    requires Ready(reg)
    ensures var v, w := View(reg, NewSensor(0)), History(reg, TOLD_OF_REMOVAL);
      w == World([ADD, DROP], [Update(v), Removal(ID)], [], [], []) && After(reg, w.ops) == reg
  {
    StillListed(reg, NewSensor(0));
    Removing(reg, NewSensor(0));
    hide History, After, Step, Broadcast, Ready, Received, Listed;
    Listing(reg);
    ToldOfSensor(reg);
    GatewayActs(reg, TOLD_OF_SENSOR, DROP, WithSensor(reg, NewSensor(0)), [Removal(ID)]);
    ClientIsTold(reg, TOLD_OF_SENSOR + [GatewayDoes(DROP)], 1);
    Alone(View(reg, NewSensor(0)));
    assert [ADD] + [DROP] == [ADD, DROP];
  }

  lemma ToldLate(reg: Reg)
    requires Ready(reg)
    ensures var v, w := View(reg, NewSensor(0)), History(reg, LATE);
      w == World([ADD, DROP], [Update(v), Removal(ID)], [], [], [v]) && After(reg, w.ops) == reg
  {
    hide History, After, Ready, Received, Listed;
    Listing(reg);
    ToldOfRemoval(reg);
    ClientIsTold(reg, TOLD_OF_REMOVAL, 0);
    Alone(View(reg, NewSensor(0)));
  }

  lemma Alone(v: PublicDevice)
    ensures Received([], Update(v)) == [v] && Received([v], Removal(v.id)) == []
  {
    assert [v][..0] == [];
    assert WithoutDevice([v], v.id) == WithoutDevice([], v.id) + [];
  }

  /** A late update brings a removed device back. */
  lemma LateUpdateReturns(now: int)
    ensures Ready(Initial(now)) && SoundHistory(Initial(now), LATE)
    ensures ID !in After(Initial(now), History(Initial(now), LATE).ops).devices
    ensures Agrees(Initial(now), History(Initial(now), TOLD_OF_REMOVAL), ID)
    ensures !Agrees(Initial(now), History(Initial(now), LATE), ID)
  {
    hide Initial, RegOk, History, After;
    StartIsReady(now);
    ToldOfRemoval(Initial(now));
    ToldLate(Initial(now));
    PlainOpsSound(Initial(now), LATE);
  }

  // ----- a removal that is lost

  const LIFT := Fault(ID, RAISE, 0)
  const LIFTED := ADDED + [GatewayDoes(LIFT)]
  const TOLD_OF_SECOND := LIFTED + [Delivers(1)]
  const DROPPED := TOLD_OF_SECOND + [GatewayDoes(DROP)]
  const ADDED_AGAIN := DROPPED + [GatewayDoes(ADD)]

  /** The client has version 2 when the sensor is removed; it misses the removal, and is told when the sensor is
      registered again. */
  const LOST := ADDED_AGAIN + [Delivers(3)]

  function First(reg: Reg): PublicDevice {
    View(reg, NewSensor(0))
  }

  function Second(reg: Reg): PublicDevice {
    View(reg, Touched(NewSensor(0), 0))
  }

  lemma ToldOfSecond(reg: Reg)
    requires Ready(reg)
    ensures var w := History(reg, TOLD_OF_SECOND);
      && w == World([ADD, LIFT], [Update(First(reg)), Update(Second(reg))], [], [], [Second(reg)])
      && After(reg, w.ops) == WithSensor(reg, Touched(NewSensor(0), 0))
  {
    StillListed(reg, NewSensor(0));
    Raising(reg, NewSensor(0));
    hide History, After, Step, Broadcast, Ready, Received, Listed, NewSensor;
    Listing(reg);
    Added(reg);
    GatewayActs(reg, ADDED, LIFT, WithSensor(reg, NewSensor(0)), [Update(Second(reg))]);
    assert [ADD] + [LIFT] == [ADD, LIFT];
    ClientIsTold(reg, LIFTED, 1);
    Alone(Second(reg));
  }

  lemma DroppingSecond(reg: Reg)
    requires Ready(reg)
    ensures Listed(WithSensor(reg, Touched(NewSensor(0), 0)))
    ensures Step(WithSensor(reg, Touched(NewSensor(0), 0)), DROP) == reg
    ensures Broadcast(WithSensor(reg, Touched(NewSensor(0), 0)), DROP) == [Removal(ID)]
  {
    StillListed(reg, Touched(NewSensor(0), 0));
    hide Listed, Ready, Step, Broadcast;
    Removing(reg, Touched(NewSensor(0), 0));
  }

  lemma Dropped(reg: Reg)
    requires Ready(reg)
    ensures var w := History(reg, DROPPED);
      && w == World([ADD, LIFT, DROP], [Update(First(reg)), Update(Second(reg)), Removal(ID)], [], [], [Second(reg)])
      && After(reg, w.ops) == reg
  {
    hide History, After, Step, Broadcast, Ready, Listed, NewSensor, First, Second, WithSensor, Touched, TOLD_OF_SECOND;
    DroppingSecond(reg);
    Listing(reg);
    ToldOfSecond(reg);
    GatewayActs(reg, TOLD_OF_SECOND, DROP, WithSensor(reg, Touched(NewSensor(0), 0)), [Removal(ID)]);
    assert [ADD, LIFT] + [DROP] == [ADD, LIFT, DROP];
  }

  lemma ToldOfReturn(reg: Reg)
    requires Ready(reg)
    ensures var w := History(reg, LOST);
      && w == World([ADD, LIFT, DROP, ADD],
                    [Update(First(reg)), Update(Second(reg)), Removal(ID), Update(First(reg))], [], [], [Second(reg)])
      && After(reg, w.ops) == WithSensor(reg, NewSensor(0))
  {
    Registering(reg, 0);
    Older(Second(reg), First(reg));
    hide History, After, Step, Broadcast, Ready, Received, Listed, NewSensor, View;
    Listing(reg);
    Dropped(reg);
    GatewayActs(reg, DROPPED, ADD, reg, [Update(First(reg))]);
    assert [ADD, LIFT, DROP] + [ADD] == [ADD, LIFT, DROP, ADD];
    ClientIsTold(reg, ADDED_AGAIN, 3);
  }

  lemma Older(v: PublicDevice, w: PublicDevice)
    requires v.id == w.id && w.stateVersion < v.stateVersion
    ensures Received([v], Update(w)) == [v]
  {
    assert v in [v];
  }

  /** An old copy shuts the new incarnation out, although the client is given the current view of it last. */
  lemma LostRemovalShutsOut(now: int)
    ensures Ready(Initial(now)) && SoundHistory(Initial(now), LOST) && LOST[|LOST| - 1] == Delivers(3)
    ensures var reg, w := Initial(now), History(Initial(now), LOST);
      && ID in After(reg, w.ops).devices && |w.sent| == 4 && w.sent[3] == Update(Public(After(reg, w.ops), ID))
      && !Agrees(reg, w, ID) && w.sent[3].view.stateVersion == 1
      && Copy(w.client, ID).Some? && Copy(w.client, ID).value.stateVersion == 2
  {
    hide Initial, RegOk, History, After;
    StartIsReady(now);
    ToldOfReturn(Initial(now));
    PlainOpsSound(Initial(now), LOST);
  }
}
