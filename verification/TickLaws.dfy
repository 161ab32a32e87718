/**
 * What one tick makes of a device of each family, and what the tick of the registry looks at, in which order,
 * and announces.
 */
module TickLaws {
  import opened Lists
  import opened Wrappers
  import opened Devices
  import opened Registry
  import opened Operations
  import opened Traces
  import opened CommandLaws
  import opened LightRuns

  // ----- devices

  /** The tick changes the fields and reports it: the version rises by one. */
  function Reported(d: Device, now: int, body: Body): Device {
    d.(stateVersion := d.stateVersion + 1, updatedAt := now, body := body)
  }

  /** The tick changes private fields only. */
  function Unreported(d: Device, body: Body): Device {
    d.(body := body)
  }

  lemma LightTicked(d: Device, now: int, around: Surroundings, w: Weather)
    requires d.body.Light?
    ensures var b, e := d.body, Ticked(d, now, around, w);
            var a := b.automation;
      if !d.online || !a.enabled || around.sensor.None? || !around.sensor.value.online
         || (a.manualOverrideUntil.Some? && now < a.manualOverrideUntil.value) then
        e == d
      else if around.sensor.value.presence then
        if around.sensor.value.lux >= a.thresholdLux as real then e == d
        else if b.power then e == Unreported(d, b.(noPresenceSince := None))
        else e == Reported(d, now, b.(power := true, brightness := if b.lastNonZero < 1 then 1 else b.lastNonZero,
                                      noPresenceSince := None))
      else
        if b.noPresenceSince.None? then e == Unreported(d, b.(noPresenceSince := Some(now)))
        else if b.power && now - b.noPresenceSince.value >= 1000 * a.noPresenceDelaySeconds
        then e == Reported(d, now, b.(power := false))
        else e == d
  {
  }

  /** r is x rounded to tenths. */
  predicate IsTenth(r: real, x: real) {
    var n := (r * 10.0).Floor;
    n as real == r * 10.0 && IsRounded(n, x * 10.0)
  }

  predicate Runs(c: Option<Cooling>) {
    c.Some? && c.value.online && c.value.power
  }

  /** A sensor measures unless it is offline or holds injected readings: the readings move eight and six hundredths of
      the way toward what the room is driven to, and are marked valid exactly when they are plausible. */
  lemma SensorTicked(d: Device, now: int, around: Surroundings, w: Weather)
    requires d.body.Environment?
    ensures var b, e := d.body, Ticked(d, now, around, w);
            var measures := d.online && now >= b.manualInjectionUntil;
            var temperature := if Runs(around.cooling) && around.cooling.value.mode in {"cool", "heat", "auto"}
                               then around.cooling.value.target as real else w.ambientTemperature;
            var humidity := if Runs(around.cooling) && around.cooling.value.mode == "dry" then 50.0
                            else w.ambientHumidity;
      && e.body.Environment?
      && (measures ==>
            && IsTenth(e.body.temperature,
                       b.temperature + (temperature - b.temperature) * 0.08 + w.temperatureNoise)
            && IsTenth(e.body.humidity, b.humidity + (humidity - b.humidity) * 0.06 + w.humidityNoise)
            && IsTenth(e.body.lux, if w.lux < 0.0 then 0.0 else w.lux))
      && (!measures ==>
            e.body.temperature == b.temperature && e.body.humidity == b.humidity && e.body.lux == b.lux)
      && e.body.presence == b.presence && e.body.manualInjectionUntil == b.manualInjectionUntil
      && (e.body.dataValid <==>
            -10.0 <= e.body.temperature <= 45.0 && 0.0 <= e.body.humidity <= 100.0)
      && e == (if measures || e.body.dataValid != b.dataValid then Reported(d, now, e.body) else d)
  {
    var measures := d.online && now >= d.body.manualInjectionUntil;
    if measures {
      Tenth(d.body.temperature + (TargetTemperature(around, w) - d.body.temperature) * 0.08 + w.temperatureNoise);
      Tenth(d.body.humidity + (TargetHumidity(around, w) - d.body.humidity) * 0.06 + w.humidityNoise);
      Tenth(if w.lux < 0.0 then 0.0 else w.lux);
    }
    hide IsTenth, RoundTenth, PlausibleReading;
    Plausible(Ticked(d, now, around, w).body.temperature, Ticked(d, now, around, w).body.humidity);
  }

  lemma Tenth(x: real)
    ensures IsTenth(RoundTenth(x), x)
  {
    var n := RoundHalfEven(x * 10.0);
    assert RoundTenth(x) * 10.0 == n as real;
    assert (n as real).Floor == n;
  }

  lemma Plausible(t: real, h: real)
    ensures PlausibleReading(t, h) <==> -10.0 <= t <= 45.0 && 0.0 <= h <= 100.0
  {
  }

  lemma DoorTicked(d: Device, now: int, around: Surroundings, w: Weather)
    requires d.body.DoorLock?
    ensures var b, e := d.body, Ticked(d, now, around, w);
      if d.online && !b.locked && b.autoLockEnabled && b.autoLockAt.Some? && b.autoLockAt.value <= now
      then e == Reported(d, now, b.(locked := true, autoLockAt := None))
      else e == d
  {
  }

  lemma CurtainTicked(d: Device, now: int, around: Surroundings, w: Weather)
    requires d.body.Curtain?
    ensures var b, e := d.body, Ticked(d, now, around, w);
      if !d.online || (b.position == b.targetPosition && b.movement == Stopped) then e == d
      else if b.position == b.targetPosition then e == Reported(d, now, b.(movement := Stopped))
      else if b.targetPosition - 10 <= b.position <= b.targetPosition + 10
      then e == Reported(d, now, b.(position := b.targetPosition, movement := Stopped))
      else if b.position < b.targetPosition
      then e == Reported(d, now, b.(position := b.position + 10, movement := Opening))
      else e == Reported(d, now, b.(position := b.position - 10, movement := Closing))
  {
  }

  /** Air conditioners, bath heaters, humidifiers and devices of other drivers do not change by themselves. */
  lemma OtherTicked(d: Device, now: int, around: Surroundings, w: Weather)
    requires d.body.AirConditioner? || d.body.BathHeater? || d.body.Humidifier? || d.body.Plain?
    ensures Ticked(d, now, around, w) == d
  {
  }

  // ----- faults and readings

  function Given<T>(v: Option<T>, otherwise: T): T {
    match v
    case Some(x) => x
    case None => otherwise
  }

  /** A fault writes the fields it names, jam and battery on doors only; the version rises once if there was one. */
  lemma FaultWrites(d: Device, f: Faults, now: int)
    ensures var e := Faulted(d, f, now);
            var body := if d.body.DoorLock?
                        then d.body.(jammed := Given(f.jammed, d.body.jammed),
                                     battery := Given(f.battery, d.body.battery))
                        else d.body;
            var written := d.(online := Given(f.online, d.online),
                              commandDelayMs := Given(f.commandDelayMs, d.commandDelayMs),
                              failNextCommand := Given(f.failNextCommand, d.failNextCommand), body := body);
            var named := f.online.Some? || f.commandDelayMs.Some? || f.failNextCommand.Some?
                         || (d.body.DoorLock? && (f.jammed.Some? || f.battery.Some?));
      e == if named then Reported(written, now, body) else d
  {
  }

  /** In the registry: the device's view is the answer, and a door left with a battery of twenty or less raises an
      alert if the fault named a field it has. */
  lemma FaultInRegistry(reg: Reg, id: string, f: Faults, now: int)
    ensures var c := InjectFault(reg, id, f, now);
      && (id !in reg.devices ==> c == Changed(reg, Err(InvalidCommand)))
      && (id in reg.devices ==>
            var e := Faulted(reg.devices[id], f, now);
            var low := e.body.DoorLock? && e.body.battery <= 20 && e.stateVersion != reg.devices[id].stateVersion;
            && c.reg == reg.(devices := reg.devices[id := e],
                             alerts := if low then reg.alerts + [LowBattery(id, now)] else reg.alerts)
            && c.result == Ok(PublicView(e, reg.categories)))
  {
    hide PublicView;
  }

  /** Injected readings replace those they name and hold for thirty seconds. */
  lemma ReadingsWrite(d: Device, r: Readings, now: int)
    requires d.body.Environment?
    ensures Injected(d, r, now) ==
            Reported(d, now, Environment(Given(r.temperature, d.body.temperature), Given(r.humidity, d.body.humidity),
                                         Given(r.lux, d.body.lux), Given(r.presence, d.body.presence),
                                         d.body.dataValid, now + 30_000))
  {
  }

  // ----- looking devices up

  predicate Matches(d: Device, kind: string, room: Option<string>) {
    d.kind == kind && (room.Some? ==> d.roomId == room.value)
  }

  /** The first device of the type, and of the room if one is named, in the order of registration. */
  lemma {:induction false} FindFirstMeans(
    devices: map<string, Device>, order: seq<string>, kind: string, room: Option<string>)
    requires forall id <- order :: id in devices
    ensures var found := FindFirst(devices, order, kind, room);
      && (found.None? <==> forall id <- order :: !Matches(devices[id], kind, room))
      && (found.Some? ==> exists i :: 0 <= i < |order| && order[i] == found.value
                            && Matches(devices[order[i]], kind, room)
                            && forall j :: 0 <= j < i ==> !Matches(devices[order[j]], kind, room))
  {
    if order != [] {
      FindFirstMeans(devices, order[1..], kind, room);
      var found := FindFirst(devices, order, kind, room);
      if Matches(devices[order[0]], kind, room) {
        assert order[0] == found.value;
      } else {
        assert order == [order[0]] + order[1..];
        if found.Some? {
          var i :| 0 <= i < |order[1..]| && order[1..][i] == found.value && Matches(devices[order[1..][i]], kind, room)
            && forall j :: 0 <= j < i ==> !Matches(devices[order[1..][j]], kind, room);
          assert order[i + 1] == found.value;
          forall j | 0 <= j < i + 1 ensures !Matches(devices[order[j]], kind, room) {
            if j > 0 { assert order[1..][j - 1] == order[j]; }
          }
        }
      }
    }
  }

  /** A light and a sensor look at the first sensor and the first air conditioner of their room. */
  lemma SurroundingsMean(reg: Reg, d: Device)
    ensures var sensor := FindFirst(reg.devices, reg.order, "environment", Some(d.roomId));
            var cooling := FindFirst(reg.devices, reg.order, "airConditioner", Some(d.roomId));
            var around := SurroundingsOf(reg, d);
      && (sensor.Some? && reg.devices[sensor.value].body.Environment? ==>
            var s := reg.devices[sensor.value];
            around.sensor == Some(Sensed(s.online, s.body.presence, s.body.lux)))
      && (sensor.None? ==> around.sensor.None?)
      && (cooling.Some? && reg.devices[cooling.value].body.AirConditioner? ==>
            var c := reg.devices[cooling.value];
            around.cooling == Some(Cooling(c.online, c.body.acPower, c.body.mode, c.body.target)))
      && (cooling.None? ==> around.cooling.None?)
  {
    hide FindFirst;
  }

  /** In the registry: the readings go to the first sensor of all. */
  lemma ReadingsInRegistry(reg: Reg, r: Readings, now: int)
    ensures var first, c := FindFirst(reg.devices, reg.order, "environment", None), InjectEnvironment(reg, r, now);
      if first.Some? && reg.devices[first.value].body.Environment?
      then var e := Injected(reg.devices[first.value], r, now);
           c == Changed(reg.(devices := reg.devices[first.value := e]), Ok(PublicView(e, reg.categories)))
      else c == Changed(reg, Err(InvalidCommand))
  {
    hide FindFirst, Injected, PublicView;
  }

  // ----- the tick of the registry

  /** Sensors first, then air conditioners, humidifiers, bath heaters, lights, doors, curtains and the rest. */
  function Rank(d: Device): int {
    match d.body
    case Environment(_, _, _, _, _, _) => 10
    case AirConditioner(_, _, _, _, _, _, _) => 20
    case Humidifier(_, _) => 24
    case BathHeater(_, _) => 25
    case Light(_, _, _, _, _) => 30
    case DoorLock(_, _, _, _, _, _) => 40
    case Curtain(_, _, _) => 50
    case Plain => 100
  }

  lemma PriorityIsRank(devices: map<string, Device>, id: string)
    requires id in devices
    ensures PriorityOf(devices, id) == Rank(devices[id])
  {
  }

  lemma {:induction false} InsertKeepsOrder(
    devices: map<string, Device>, id: string, ids: seq<string>, x: string, y: string)
    requires Precedes(ids, x, y)
    ensures Precedes(Insert(devices, id, ids), x, y)
  {
    hide PriorityOf;
    var i, j :| 0 <= i < j < |ids| && ids[i] == x && ids[j] == y;
    var more := Insert(devices, id, ids);
    if PriorityOf(devices, id) <= PriorityOf(devices, ids[0]) {
      assert more[i + 1] == x && more[j + 1] == y;
    } else {
      var rest := Insert(devices, id, ids[1..]);
      if i == 0 {
        InsertElements(devices, id, ids[1..]);
        assert ids[1..][j - 1] == y && y in multiset(rest);
        var k :| 0 <= k < |rest| && rest[k] == y;
        assert more[0] == x && more[k + 1] == y;
      } else {
        assert ids[1..][i - 1] == x && ids[1..][j - 1] == y;
        InsertKeepsOrder(devices, id, ids[1..], x, y);
        PrecedesLater(more, x, y);
      }
    }
  }

  lemma {:induction false} InsertedBefore(devices: map<string, Device>, id: string, ids: seq<string>, y: string)
    requires Sorted(devices, ids) && y in ids && PriorityOf(devices, id) <= PriorityOf(devices, y)
    ensures Precedes(Insert(devices, id, ids), id, y)
  {
    hide PriorityOf;
    var more := Insert(devices, id, ids);
    if PriorityOf(devices, id) <= PriorityOf(devices, ids[0]) {
      var k :| 0 <= k < |ids| && ids[k] == y;
      assert more[0] == id && more[k + 1] == y;
    } else {
      assert ids == [ids[0]] + ids[1..];
      InsertedBefore(devices, id, ids[1..], y);
      PrecedesLater(more, id, y);
    }
  }

  lemma {:induction false} StableOrder(devices: map<string, Device>, order: seq<string>, x: string, y: string)
    requires Precedes(order, x, y) && PriorityOf(devices, x) == PriorityOf(devices, y)
    ensures Precedes(ByPriority(devices, order), x, y)
  {
    hide PriorityOf, Insert;
    var i, j :| 0 <= i < j < |order| && order[i] == x && order[j] == y;
    var rest := ByPriority(devices, order[1..]);
    if i == 0 {
      assert order[1..][j - 1] == y;
      ByPriorityElements(devices, order[1..]);
      assert y in multiset(rest);
      ByPrioritySorted(devices, order[1..]);
      InsertedBefore(devices, x, rest, y);
    } else {
      assert order[1..][i - 1] == x && order[1..][j - 1] == y;
      StableOrder(devices, order[1..], x, y);
      InsertKeepsOrder(devices, order[0], rest, x, y);
    }
  }

  /** The tick takes every device once, by rank, and within a rank as registered. */
  lemma TickOrderMeans(reg: Reg)
    requires Listed(reg)
    ensures var ids := TickOrder(reg);
      && Distinct(ids) && (forall id :: id in ids <==> id in reg.devices)
      && (forall i, j :: 0 <= i < j < |ids| ==> Rank(reg.devices[ids[i]]) <= Rank(reg.devices[ids[j]]))
      && (forall x, y :: (Precedes(reg.order, x, y) && x in reg.devices && y in reg.devices
                          && Rank(reg.devices[x]) == Rank(reg.devices[y])) ==> Precedes(ids, x, y))
  {
    var ids := TickOrder(reg);
    ByPrioritySorted(reg.devices, reg.order);
    hide PriorityOf, Rank, ByPriority;
    forall i, j | 0 <= i < j < |ids| ensures Rank(reg.devices[ids[i]]) <= Rank(reg.devices[ids[j]]) {
      PriorityIsRank(reg.devices, ids[i]);
      PriorityIsRank(reg.devices, ids[j]);
    }
    forall x, y | Precedes(reg.order, x, y) && x in reg.devices && y in reg.devices
                  && Rank(reg.devices[x]) == Rank(reg.devices[y])
      ensures Precedes(ids, x, y)
    {
      PriorityIsRank(reg.devices, x);
      PriorityIsRank(reg.devices, y);
      StableOrder(reg.devices, reg.order, x, y);
    }
  }

  /** The views of the devices whose version is another one than before. */
  function Moved(before: map<string, Device>, after: Reg, ids: seq<string>): seq<PublicDevice>
    requires forall id <- ids :: id in before && id in after.devices
  {
    if ids == [] then []
    else
      var last := ids[|ids| - 1];
      Moved(before, after, ids[..|ids| - 1])
      + if after.devices[last].stateVersion != before[last].stateVersion
        then [PublicView(after.devices[last], after.categories)] else []
  }

  lemma {:induction false} SameMoved(before: map<string, Device>, a: Reg, b: Reg, ids: seq<string>)
    requires forall id <- ids :: id in before && id in a.devices && id in b.devices && a.devices[id] == b.devices[id]
    requires a.categories == b.categories
    ensures Moved(before, a, ids) == Moved(before, b, ids)
  {
    if ids != [] {
      SameMoved(before, a, b, ids[..|ids| - 1]);
    }
  }

  lemma {:induction false} TickReportsMoved(reg: Reg, ids: seq<string>, now: int, forecast: Forecast)
    requires Distinct(ids) && forall id <- ids :: id in reg.devices
    ensures var t := TickFirst(reg, ids, now, forecast);
      && (forall id <- ids :: id in t.reg.devices)
      && t.reg.categories == reg.categories
      && t.changed == Moved(reg.devices, t.reg, ids)
  {
    hide BodyTick, SurroundingsOf, PublicView;
    if ids != [] {
      var front, last := ids[..|ids| - 1], ids[|ids| - 1];
      TickReportsMoved(reg, front, now, forecast);
      TickElsewhere(reg, front, now, forecast, last);
      var before, after := TickFirst(reg, front, now, forecast).reg, TickFirst(reg, ids, now, forecast).reg;
      assert last !in front;
      SameMoved(reg.devices, before, after, front);
    }
  }

  /** The tick announces exactly the devices it moved to a new version, in the order of the tick. */
  lemma TickAnnouncesMoved(reg: Reg, now: int, forecast: Forecast)
    requires Listed(reg)
    ensures var h := Perform(reg, TickAll(now, forecast));
      && h.reg.devices.Keys == reg.devices.Keys
      && (forall id <- TickOrder(reg) :: id in reg.devices && id in h.reg.devices)
      && h.announced == Moved(reg.devices, h.reg, TickOrder(reg))
  {
    TickReportsMoved(reg, TickOrder(reg), now, forecast);
  }
}
